/** The action pipeline: checks, idempotency, execution in a transaction, then recording, emitting
    and auditing. Every hook is a function of the database and the call; a call also says which of
    its own store operations fail. */
module Dispatch {
  import opened Tenancy

  type Db = map<string, string>

  /** A handler's result: JSON text, a raw message, or a value that may not marshal. */
  datatype Value = Nil | Raw(text: string) | Struct(json: Option<string>)

  /** A result carrying a one-time secret also has a redacted form. */
  datatype Output = Open(value: Value) | Secret(value: Value, redacted: Value)

  function Redacted(o: Output): Value { if o.Secret? then o.redacted else o.value }

  function Marshal(v: Value): Option<string> {
    match v
    case Nil => Some("null")
    case Raw(text) => Some(if text == "" then "null" else text)
    case Struct(json) => json
  }

  datatype ActorKind = User | Agent | ApiKey | Service | Unknown

  datatype Actor = Actor(kind: ActorKind, id: string, ip: string)

  datatype Scope = Platform | Org | Team | Project | Self

  datatype Definition = Definition(scope: Scope, high: bool, privateResult: bool, preview: bool)

  datatype Faults = Faults(get: bool, begin: bool, commit: bool, put: bool, audit: bool)

  datatype Call = Call(
    actor: Actor, name: string, input: string, org: string, team: string, proj: string,
    dryRun: bool, key: string, now: int, faults: Faults)

  datatype Error =
    | Forbidden | UnknownAction | InvalidInput | OutOfScope | SSORequired | CheckFailed
    | ApprovalPending(id: string) | StoreFailed | HandlerFailed(reason: string) | Unmarshalable

  datatype Answer = Refused(error: Error) | Returned(output: Output)

  datatype ScopeVerdict = InScope | NeedsSSO | NotInScope

  datatype Approval = Forbid | Pending(id: string) | Proceed | GateFailed

  datatype Handled = Done(db: Db, output: Output) | Failed(reason: string)

  /** The registered actions and hooks of one dispatcher. allow answers None when the check itself
      fails; gate may write its own approval rows. */
  datatype Env = Env(
    actions: map<string, Definition>,
    valid: Call -> bool,
    resolve: (Db, Call) -> ScopeVerdict,
    allow: (Db, Call) -> Option<bool>,
    gate: (Db, Call) -> (Approval, Db),
    preview: (Db, Call) -> Answer,
    handle: (Db, Call) -> Handled,
    subject: Value -> string)

  datatype Record = Record(actor: Actor, action: string, result: string, at: int)

  datatype Event = Event(name: string, org: string, actor: Actor, subject: string, payload: Option<string>)

  datatype Audit = Audit(org: string, actor: Actor, action: string, subject: string, detail: string)

  /** executed lists the calls whose handler ran and committed, as history. */
  datatype State = State(db: Db, idem: map<string, Record>, events: seq<Event>, audit: seq<Audit>, executed: seq<Call>)

  /** Platform and self actions carry no tenant id; self actions are a user's own. */
  predicate ShapeOk(d: Definition, r: Call) {
    (d.scope.Platform? || d.scope.Self? ==> r.org == "" && r.team == "" && r.proj == "") &&
    (d.scope.Self? ==> r.actor.kind.User?)
  }

  /** Everything before execution, except the idempotency lookup: None lets the call through. */
  function Checks(env: Env, db: Db, r: Call): (Db, Option<Answer>) {
    if r.actor.kind.Unknown? || r.actor.id == "" then (db, Some(Refused(Forbidden)))
    else if r.name !in env.actions then (db, Some(Refused(UnknownAction)))
    else if !ShapeOk(env.actions[r.name], r) then (db, Some(Refused(Forbidden)))
    else if !env.valid(r) then (db, Some(Refused(InvalidInput)))
    else if env.resolve(db, r).NeedsSSO? then (db, Some(Refused(SSORequired)))
    else if env.resolve(db, r).NotInScope? then (db, Some(Refused(OutOfScope)))
    else if env.allow(db, r).None? then (db, Some(Refused(CheckFailed)))
    else if !env.allow(db, r).value then (db, Some(Refused(Forbidden)))
    else Gated(env, db, r)
  }

  function Gated(env: Env, db: Db, r: Call): (Db, Option<Answer>)
    requires r.name in env.actions
  {
    var (verdict, after) := if r.actor.kind.Agent? then env.gate(db, r) else (Proceed, db);
    match verdict
    case GateFailed => (after, Some(Refused(CheckFailed)))
    case Forbid => (after, Some(Refused(Forbidden)))
    case Pending(id) => (after, Some(Refused(ApprovalPending(id))))
    case Proceed =>
      if !r.dryRun then (after, None)
      else if env.actions[r.name].preview then (after, Some(env.preview(after, r)))
      else (after, Some(Returned(Open(Raw(r.input)))))
  }

  /** Run the handler in a transaction: a failure leaves the database as it was. */
  function Execute(env: Env, db: Db, r: Call): (Db, Option<Output>, Error) {
    if r.faults.begin then (db, None, StoreFailed)
    else
      match env.handle(db, r)
      case Failed(reason) => (db, None, HandlerFailed(reason))
      case Done(after, output) => if r.faults.commit then (db, None, StoreFailed)
        else (after, Some(output), StoreFailed)
  }

  function EventOf(env: Env, d: Definition, r: Call, stored: Value, payload: string): Event {
    Event(r.name, r.org, r.actor, env.subject(stored), if d.privateResult || d.scope.Self? then None else Some(payload))
  }

  /** Execution and everything after it. */
  function Finish(env: Env, s: State, r: Call): (State, Answer)
    requires r.name in env.actions
  {
    var (db, done, error) := Execute(env, s.db, r);
    if done.None? then (s, Refused(error))
    else Recorded(env, s.(db := db, executed := s.executed + [r]), r, done.value)
  }

  /** After the commit: the result is stored under the key, which must be free, then published. */
  function Recorded(env: Env, s: State, r: Call, output: Output): (State, Answer)
    requires r.name in env.actions
  {
    var stored := Redacted(output);
    var payload := Marshal(stored);
    if payload.None? then (s, Refused(Unmarshalable))
    else if r.key != "" && (r.faults.put || r.key in s.idem) then (s, Refused(StoreFailed))
    else
      var q := if r.key == "" then s else s.(idem := s.idem[r.key := Record(r.actor, r.name, payload.value, r.now)]);
      Publish(env, q, r, output, stored, payload.value)
  }

  function Publish(env: Env, s: State, r: Call, output: Output, stored: Value, payload: string): (State, Answer)
    requires r.name in env.actions
  {
    var d := env.actions[r.name];
    var q := s.(events := s.events + [EventOf(env, d, r, stored, payload)]);
    if !d.high && !r.actor.kind.Agent? then (q, Returned(output))
    else if r.faults.audit then (q, Refused(StoreFailed))
    else (q.(audit := q.audit + [Audit(r.org, r.actor, r.name, env.subject(stored), payload)]), Returned(output))
  }

  function Step(env: Env, s: State, r: Call): (State, Answer) {
    var (db, verdict) := Checks(env, s.db, r);
    var q := s.(db := db);
    if verdict.Some? then (q, verdict.value)
    else if r.key != "" && r.faults.get then (q, Refused(StoreFailed))
    else if r.key != "" && r.key in s.idem then (q, Returned(Open(Raw(s.idem[r.key].result))))
    else Finish(env, q, r)
  }

  class Dispatcher {
    const env: Env
    var db: Db
    var idem: map<string, Record>
    var events: seq<Event>
    var audit: seq<Audit>
    ghost var executed: seq<Call>

    ghost function Now(): State
      reads this
    {
      State(db, idem, events, audit, executed)
    }

    method Run(r: Call) returns (output: Option<Output>, error: Error)
      requires r.name in env.actions
      modifies this`db, this`executed
      ensures (db, output, error) == Execute(env, old(db), r)
      ensures executed == if output.Some? then old(executed) + [r] else old(executed)
    {
      if r.faults.begin { return None, StoreFailed; }
      var h := env.handle(db, r);
      if h.Failed? { return None, HandlerFailed(h.reason); }
      if r.faults.commit { return None, StoreFailed; }
      db := h.db;
      executed := executed + [r];
      return Some(h.output), StoreFailed;
    }

    method Dispatch(r: Call) returns (a: Answer)
      modifies this
      ensures (Now(), a) == Step(env, old(Now()), r)
    {
      if r.actor.kind.Unknown? { return Refused(Forbidden); }
      if r.actor.id == "" { return Refused(Forbidden); }
      if r.name !in env.actions { return Refused(UnknownAction); }
      var d := env.actions[r.name];
      if !ShapeOk(d, r) { return Refused(Forbidden); }
      if !env.valid(r) { return Refused(InvalidInput); }
      var scope := env.resolve(db, r);
      if scope.NeedsSSO? { return Refused(SSORequired); }
      if scope.NotInScope? { return Refused(OutOfScope); }
      var allowed := env.allow(db, r);
      if allowed.None? { return Refused(CheckFailed); }
      if !allowed.value { return Refused(Forbidden); }
      if r.actor.kind.Agent? {
        var g := env.gate(db, r);
        db := g.1;
        match g.0 {
          case GateFailed => return Refused(CheckFailed);
          case Forbid => return Refused(Forbidden);
          case Pending(id) => return Refused(ApprovalPending(id));
          case Proceed =>
        }
      }
      if r.dryRun {
        if d.preview { return env.preview(db, r); }
        return Returned(Open(Raw(r.input)));
      }
      if r.key != "" {
        if r.faults.get { return Refused(StoreFailed); }
        if r.key in idem { return Returned(Open(Raw(idem[r.key].result))); }
      }
      var output, error := Run(r);
      if output.None? { return Refused(error); }
      var stored := Redacted(output.value);
      var payload := Marshal(stored);
      if payload.None? { return Refused(Unmarshalable); }
      if r.key != "" {
        if r.faults.put || r.key in idem { return Refused(StoreFailed); }
        idem := idem[r.key := Record(r.actor, r.name, payload.value, r.now)];
      }
      events := events + [EventOf(env, d, r, stored, payload.value)];
      if d.high || r.actor.kind.Agent? {
        if r.faults.audit { return Refused(StoreFailed); }
        audit := audit + [Audit(r.org, r.actor, r.name, env.subject(stored), payload.value)];
      }
      return Returned(output.value);
    }
  }

  // ---- Runs ----------------------------------------------------------------------------------------

  function Initial(db: Db): State { State(db, map[], [], [], []) }

  ghost function Run(env: Env, s: State, rs: seq<Call>): State
    decreases |rs|
  {
    if rs == [] then s else Step(env, Run(env, s, rs[..|rs| - 1]), rs[|rs| - 1]).0
  }

  /** The calls with this key whose handler ran. */
  ghost function RanWith(executed: seq<Call>, key: string): nat {
    if executed == [] then 0
    else RanWith(executed[..|executed| - 1], key) + if executed[|executed| - 1].key == key then 1 else 0
  }

  lemma RanWithSnoc(executed: seq<Call>, r: Call, key: string)
    ensures RanWith(executed + [r], key) == RanWith(executed, key) + if r.key == key then 1 else 0
  {
    assert (executed + [r])[..|executed|] == executed;
  }

  lemma ChecksKnowsAction(env: Env, db: Db, r: Call)
    requires Checks(env, db, r).1.None?
    ensures r.name in env.actions
  {
  }

  lemma RecordedAdds(env: Env, s: State, r: Call, output: Output, key: string)
    requires r.name in env.actions && key != ""
    ensures var q := Recorded(env, s, r, output).0;
            q.executed == s.executed &&
            (key in q.idem <==> key in s.idem || (r.key == key && !r.faults.put && Marshal(Redacted(output)).Some?)) &&
            (key in s.idem ==> q.idem[key] == s.idem[key])
  {
  }

  lemma StepKeepsRecords(env: Env, s: State, r: Call, key: string)
    requires key != "" && key in s.idem
    ensures var q := Step(env, s, r).0;
            key in q.idem && q.idem[key] == s.idem[key] && RanWith(q.executed, key) == RanWith(s.executed, key)
  {
    hide Checks, Execute, Recorded, RanWith;
    var (db, verdict) := Checks(env, s.db, r);
    if verdict.None? {
      ChecksKnowsAction(env, s.db, r);
      var (after, done, _) := Execute(env, db, r);
      if done.Some? {
        RanWithSnoc(s.executed, r, key);
        RecordedAdds(env, s.(db := after, executed := s.executed + [r]), r, done.value, key);
      }
    }
  }

  /** Once a key is recorded, no later call with it runs a handler, the record never changes, and
      every call that passes the checks is answered from it. */
  lemma {:induction false} RecordedKeyIsFinal(env: Env, s: State, rs: seq<Call>, r: Call, key: string)
    requires key != "" && key in s.idem
    ensures var q := Run(env, s, rs);
            key in q.idem && q.idem[key] == s.idem[key] && RanWith(q.executed, key) == RanWith(s.executed, key)
    ensures r.key == key && Checks(env, Run(env, s, rs).db, r).1.None? && !r.faults.get ==>
            Step(env, Run(env, s, rs), r).1 == Returned(Open(Raw(s.idem[key].result)))
    decreases |rs|
  {
    if rs == [] {
    } else {
      var front := rs[..|rs| - 1];
      RecordedKeyIsFinal(env, s, front, r, key);
      StepKeepsRecords(env, Run(env, s, front), rs[|rs| - 1], key);
    }
  }

  // ---- A handler runs only for a permitted call ---------------------------------------------------------

  /** A known actor, a registered action called in its scope's shape with valid input, a scope the
      actor may use, a granted permission and, for an agent, an approval. */
  ghost predicate Permitted(env: Env, db: Db, r: Call) {
    !r.actor.kind.Unknown? && r.actor.id != "" && r.name in env.actions && env.valid(r) &&
    (env.actions[r.name].scope in {Platform, Self} ==> r.org == "" && r.team == "" && r.proj == "") &&
    (env.actions[r.name].scope == Self ==> r.actor.kind == User) &&
    env.resolve(db, r) == InScope && env.allow(db, r) == Some(true) &&
    (r.actor.kind == Agent ==> env.gate(db, r).0 == Proceed)
  }

  /** The database once an agent's approval has been asked for. */
  ghost function Approved(env: Env, db: Db, r: Call): Db { if r.actor.kind == Agent then env.gate(db, r).1 else db }

  lemma ChecksPermit(env: Env, db: Db, r: Call)
    ensures Checks(env, db, r).1.None? <==> Permitted(env, db, r) && !r.dryRun
    ensures Permitted(env, db, r) ==> Checks(env, db, r).0 == Approved(env, db, r)
    ensures !Permitted(env, db, r) ==> Checks(env, db, r).1.Some? && Checks(env, db, r).1.value.Refused?
  {
  }

  /** A call runs its handler, to a commit, iff it is permitted, no dry run, not answered from a
      record, and the handler succeeds. */
  lemma HandlerRunsIff(env: Env, s: State, r: Call)
    ensures Step(env, s, r).0.executed ==
            if Permitted(env, s.db, r) && !r.dryRun && (r.key != "" ==> !r.faults.get && r.key !in s.idem) &&
               env.handle(Approved(env, s.db, r), r).Done? && !r.faults.begin && !r.faults.commit
            then s.executed + [r]
            else s.executed
  {
    hide Checks, Permitted, Recorded;
    ChecksPermit(env, s.db, r);
    var (db, verdict) := Checks(env, s.db, r);
    if verdict.None? {
      ChecksKnowsAction(env, s.db, r);
      var (after, done, _) := Execute(env, db, r);
      if done.Some? {
        RecordedAdds(env, s.(db := after, executed := s.executed + [r]), r, done.value, "k");
      }
    }
  }

  /** A call that is not permitted is refused and changes nothing; only a refused agent may have left
      a row of its approval gate. */
  lemma RefusedWithoutTrace(env: Env, s: State, r: Call)
    requires !Permitted(env, s.db, r)
    ensures Step(env, s, r).1.Refused?
    ensures var q := Step(env, s, r).0;
            q == s || (r.actor.kind == Agent && env.allow(s.db, r) == Some(true) && q == s.(db := env.gate(s.db, r).1))
  {
  }

  /** A handler that fails, or whose transaction does not commit, leaves no trace either. */
  lemma FailureWithoutTrace(env: Env, s: State, r: Call)
    requires Permitted(env, s.db, r) && !r.dryRun && (r.key == "" || r.key !in s.idem)
    requires env.handle(Approved(env, s.db, r), r).Failed? || r.faults.begin || r.faults.commit
    ensures Step(env, s, r).0 == s.(db := Approved(env, s.db, r)) && Step(env, s, r).1.Refused?
  {
    hide Checks, Permitted, Approved;
    ChecksPermit(env, s.db, r);
    ChecksKnowsAction(env, s.db, r);
  }

  /** In particular when only the permission is denied. */
  lemma DeniedIsForbidden(env: Env, s: State, r: Call, granted: (Db, Call) -> Option<bool>)
    requires env.allow(s.db, r) == Some(false) && granted(s.db, r) == Some(true)
    requires r.actor.kind != Agent && Permitted(env.(allow := granted), s.db, r)
    ensures Step(env, s, r) == (s, Refused(Forbidden))
  {
  }

  /** Every error says what went wrong. */
  lemma ErrorsSayWhy(env: Env, s: State, r: Call)
    requires !r.dryRun && Step(env, s, r).1.Refused?
    ensures match Step(env, s, r).1.error
            case UnknownAction => r.name !in env.actions
            case InvalidInput => !env.valid(r)
            case SSORequired => env.resolve(s.db, r) == NeedsSSO
            case OutOfScope => env.resolve(s.db, r) == NotInScope
            case ApprovalPending(id) => r.actor.kind == Agent && env.gate(s.db, r).0 == Pending(id)
            case CheckFailed => env.allow(s.db, r) == None ||
              (r.actor.kind == Agent && env.gate(s.db, r).0 == GateFailed)
            case Forbidden => !Permitted(env, s.db, r)
            case HandlerFailed(reason) => Permitted(env, s.db, r) &&
              env.handle(Approved(env, s.db, r), r) == Failed(reason)
            case Unmarshalable => Permitted(env, s.db, r) && env.handle(Approved(env, s.db, r), r).Done? &&
              (env.handle(Approved(env, s.db, r), r).output.value == Struct(None) ||
               (env.handle(Approved(env, s.db, r), r).output.Secret? &&
                env.handle(Approved(env, s.db, r), r).output.redacted == Struct(None)))
            case StoreFailed => Permitted(env, s.db, r) && (r.faults != Faults(false, false, false, false, false))
  {
    if Checks(env, s.db, r).1.None? { ChecksKnowsAction(env, s.db, r); }
  }

  /** A permitted dry run is answered by the preview, or by its own input. */
  lemma DryRunAnswers(env: Env, s: State, r: Call)
    requires r.dryRun && Permitted(env, s.db, r)
    ensures Step(env, s, r).1 ==
            if env.actions[r.name].preview then env.preview(Approved(env, s.db, r), r) else Returned(Open(Raw(r.input)))
  {
  }

  /** What a published call leaves: its result, without the secret if it holds one, under its key, in
      one event and, for an action of high impact or an agent, in the audit log. */
  ghost predicate Published(env: Env, s: State, r: Call, output: Output, q: State)
    requires r.name in env.actions
  {
    var d := env.actions[r.name];
    var shown := if output.Secret? then output.redacted else output.value;
    shown != Struct(None) &&
    var text := if shown.Struct? then shown.json.value else if shown in {Nil, Raw("")} then "null" else shown.text;
    q.idem == (if r.key == "" then s.idem else s.idem[r.key := Record(r.actor, r.name, text, r.now)]) &&
    q.events == s.events + [Event(r.name, r.org, r.actor, env.subject(shown),
                                  if d.privateResult || d.scope == Self then None else Some(text))] &&
    q.audit == s.audit + if d.high || r.actor.kind == Agent
                         then [Audit(r.org, r.actor, r.name, env.subject(shown), text)] else []
  }

  /** A permitted call that meets no fault takes its handler's database, is published so, and alone
      gets the secret. */
  lemma SuccessIsPublished(env: Env, s: State, r: Call, output: Output)
    requires Permitted(env, s.db, r) && !r.dryRun && (r.key == "" || r.key !in s.idem)
    requires r.faults == Faults(false, false, false, false, false)
    requires env.handle(Approved(env, s.db, r), r).Done? && env.handle(Approved(env, s.db, r), r).output == output
    requires Marshal(if output.Secret? then output.redacted else output.value).Some?
    ensures var (q, a) := Step(env, s, r);
            a == Returned(output) && q.db == env.handle(Approved(env, s.db, r), r).db && Published(env, s, r, output, q)
  {
    hide Checks, Permitted, Approved;
    ChecksPermit(env, s.db, r);
    ChecksKnowsAction(env, s.db, r);
  }

  /** A call that leaves its handler run unrecorded: the result did not marshal or the store failed. */
  ghost predicate Unrecorded(env: Env, s: State, r: Call) {
    r.key != "" && Step(env, s, r).0.executed != s.executed && Step(env, s, r).0.idem == s.idem
  }

  /** Exactly when, from the state before the call: it gets through to a handler that commits, and
      its result does not marshal or cannot be stored. */
  lemma UnrecordedIff(env: Env, s: State, r: Call)
    requires r.key != ""
    ensures var (db, verdict) := Checks(env, s.db, r);
            Unrecorded(env, s, r) <==>
              verdict.None? && !r.faults.get && r.key !in s.idem && !r.faults.begin && !r.faults.commit &&
              env.handle(db, r).Done? && (r.faults.put || Marshal(Redacted(env.handle(db, r).output)).None?)
  {
    hide Checks;
    if Checks(env, s.db, r).1.None? { ChecksKnowsAction(env, s.db, r); }
    assert s.executed + [r] != s.executed;
  }

  ghost predicate AlwaysRecorded(env: Env, s: State, rs: seq<Call>)
    decreases |rs|
  {
    rs != [] ==>
      var front := rs[..|rs| - 1];
      AlwaysRecorded(env, s, front) && !Unrecorded(env, Run(env, s, front), rs[|rs| - 1])
  }

  lemma StepRunsOnce(env: Env, s: State, r: Call, key: string)
    requires key != "" && !Unrecorded(env, s, r)
    ensures var q := Step(env, s, r).0;
            s.idem.Keys <= q.idem.Keys &&
            RanWith(q.executed, key) - RanWith(s.executed, key) ==
              (if key in q.idem then 1 else 0) - (if key in s.idem then 1 else 0)
  {
    hide Checks, Execute, Recorded, RanWith;
    var (db, verdict) := Checks(env, s.db, r);
    assert s.executed + [r] != s.executed;
    if verdict.None? {
      ChecksKnowsAction(env, s.db, r);
      var (after, done, _) := Execute(env, db, r);
      if done.Some? {
        var mid := s.(db := after, executed := s.executed + [r]);
        RanWithSnoc(s.executed, r, key);
        RecordedAdds(env, mid, r, done.value, key);
        RecordedAddsOnly(env, mid, r, done.value);
      }
    }
  }

  /** Storing adds at most the call's own key. */
  lemma RecordedAddsOnly(env: Env, s: State, r: Call, output: Output)
    requires r.name in env.actions
    ensures var q := Recorded(env, s, r, output).0;
            s.idem.Keys <= q.idem.Keys && (q.idem == s.idem || (r.key != "" && r.key in q.idem && r.key !in s.idem))
  {
  }

  /** Calls that do not overlap: as long as every run is recorded, each key runs a handler exactly
      once if it is recorded and never otherwise. */
  lemma {:induction false} CallsAloneRunOnce(env: Env, db: Db, rs: seq<Call>, key: string)
    requires key != "" && AlwaysRecorded(env, Initial(db), rs)
    ensures var q := Run(env, Initial(db), rs); RanWith(q.executed, key) == if key in q.idem then 1 else 0
    decreases |rs|
  {
    if rs == [] {
    } else {
      var front, r := rs[..|rs| - 1], rs[|rs| - 1];
      CallsAloneRunOnce(env, db, front, key);
      StepRunsOnce(env, Run(env, Initial(db), front), r, key);
    }
  }

  // ---- Overlapping calls -----------------------------------------------------------------------------

  /** A call past its lookup: its handler is still to run, or has committed. */
  datatype Flight = Missed(call: Call) | Ran(call: Call, output: Output)

  type Fid = nat

  /** One dispatcher serving calls side by side, each a lookup, a commit and a record. */
  datatype Server = Server(state: State, flights: map<Fid, Flight>)

  datatype Act = Lookup(f: Fid, r: Call) | Commit(f: Fid) | Store(f: Fid)

  predicate Enabled(env: Env, s: Server, a: Act) {
    match a
    case Lookup(f, _) => f !in s.flights
    case Commit(f) => f in s.flights && s.flights[f].Missed?
    case Store(f) => f in s.flights && s.flights[f].Ran? && s.flights[f].call.name in env.actions
  }

  /** Does the call get past its checks and find no record of its key? */
  predicate Misses(env: Env, s: State, r: Call) {
    Checks(env, s.db, r).1.None? && (r.key != "" ==> !r.faults.get && r.key !in s.idem)
  }

  function Looked(env: Env, s: Server, f: Fid, r: Call): Server {
    var q := s.(state := s.state.(db := Checks(env, s.state.db, r).0));
    if Misses(env, s.state, r) then q.(flights := q.flights[f := Missed(r)]) else q
  }

  function Committed(env: Env, s: Server, f: Fid, r: Call): Server {
    match Execute(env, s.state.db, r)
    case (_, None, _) => s.(flights := s.flights - {f})
    case (db, Some(output), _) =>
      Server(s.state.(db := db, executed := s.state.executed + [r]), s.flights[f := Ran(r, output)])
  }

  function Stored(env: Env, s: Server, f: Fid, r: Call, output: Output): Server
    requires r.name in env.actions
  {
    Server(Recorded(env, s.state, r, output).0, s.flights - {f})
  }

  function After(env: Env, s: Server, a: Act): Server {
    if !Enabled(env, s, a) then s
    else
      match a
      case Lookup(f, r) => Looked(env, s, f, r)
      case Commit(f) => Committed(env, s, f, s.flights[f].call)
      case Store(f) => Stored(env, s, f, s.flights[f].call, s.flights[f].output)
  }

  ghost function Serve(env: Env, s: Server, acts: seq<Act>): Server
    decreases |acts|
  {
    if acts == [] then s else After(env, Serve(env, s, acts[..|acts| - 1]), acts[|acts| - 1])
  }

  function Start(db: Db): Server { Server(Initial(db), map[]) }

  /** With nobody in between, the three acts of a call are one step of the sequential form. */
  lemma CallAlone(env: Env, s: Server, f: Fid, r: Call)
    requires f !in s.flights
    ensures var q := After(env, After(env, After(env, s, Lookup(f, r)), Commit(f)), Store(f));
            q.state == Step(env, s.state, r).0 && q.flights == s.flights
  {
    hide Recorded;
    var one := After(env, s, Lookup(f, r));
    if Misses(env, s.state, r) {
      ChecksKnowsAction(env, s.state.db, r);
      assert one.flights - {f} == s.flights;
    }
  }

  ghost predicate Flying(s: Server, f: Fid, key: string) { f in s.flights && s.flights[f].call.key == key }

  /** A lookup of key that misses while another call with it is in flight. */
  ghost predicate Overlaps(env: Env, s: Server, a: Act, key: string) {
    a.Lookup? && Enabled(env, s, a) && a.r.key == key && Misses(env, s.state, a.r) && exists g :: Flying(s, g, key)
  }

  /** A committed run of key about to go unrecorded: it does not marshal, or the store fails. */
  ghost predicate Loses(env: Env, s: Server, a: Act, key: string) {
    a.Store? && Enabled(env, s, a) && Flying(s, a.f, key) && key !in s.state.idem &&
    (s.flights[a.f].call.faults.put || Marshal(Redacted(s.flights[a.f].output)).None?)
  }

  ghost predicate Overlapped(env: Env, db: Db, acts: seq<Act>, key: string)
    decreases |acts|
  {
    acts != [] &&
    var front := acts[..|acts| - 1];
    Overlapped(env, db, front, key) || Overlaps(env, Serve(env, Start(db), front), acts[|acts| - 1], key)
  }

  ghost predicate LostOne(env: Env, db: Db, acts: seq<Act>, key: string)
    decreases |acts|
  {
    acts != [] &&
    var front := acts[..|acts| - 1];
    LostOne(env, db, front, key) || Loses(env, Serve(env, Start(db), front), acts[|acts| - 1], key)
  }

  /** At most one call with key is in flight, and none once key is recorded. */
  ghost predicate Alone(s: Server, key: string) {
    (forall f, g :: Flying(s, f, key) && Flying(s, g, key) ==> f == g) &&
    (key in s.state.idem ==> forall f :: !Flying(s, f, key))
  }

  ghost predicate Unstored(s: Server, key: string) { exists f :: Flying(s, f, key) && s.flights[f].Ran? }

  /** Every run of key is recorded or about to be. */
  ghost predicate Counted(s: Server, key: string) {
    RanWith(s.state.executed, key) == (if key in s.state.idem then 1 else 0) + if Unstored(s, key) then 1 else 0
  }

  lemma LookupAlone(env: Env, s: Server, a: Act, key: string)
    requires key != "" && Alone(s, key) && a.Lookup? && !Overlaps(env, s, a, key)
    ensures Alone(After(env, s, a), key) && (Counted(s, key) ==> Counted(After(env, s, a), key))
  {
    hide Checks;
    var q := After(env, s, a);
    forall f | Flying(q, f, key) ensures Flying(s, f, key) || (f == a.f && q.flights[f].Missed?) {}
    forall f | Flying(s, f, key) ensures Flying(q, f, key) && q.flights[f] == s.flights[f] {}
  }

  lemma CommitAlone(env: Env, s: Server, a: Act, key: string)
    requires key != "" && Alone(s, key) && a.Commit?
    ensures Alone(After(env, s, a), key) && (Counted(s, key) ==> Counted(After(env, s, a), key))
  {
    hide Execute;
    var q := After(env, s, a);
    if Enabled(env, s, a) {
      RanWithSnoc(s.state.executed, s.flights[a.f].call, key);
      forall f ensures Flying(q, f, key) ==> Flying(s, f, key) {}
      forall f | f != a.f ensures Flying(q, f, key) <==> Flying(s, f, key) {}
      if a.f in q.flights { assert Flying(q, a.f, key) == Flying(s, a.f, key); }
    }
  }

  lemma StoreAlone(env: Env, s: Server, a: Act, key: string)
    requires key != "" && Alone(s, key) && a.Store?
    ensures Alone(After(env, s, a), key)
    ensures Counted(s, key) && !Loses(env, s, a, key) ==> Counted(After(env, s, a), key)
  {
    var q := After(env, s, a);
    if Enabled(env, s, a) {
      forall f ensures Flying(q, f, key) <==> f != a.f && Flying(s, f, key) {}
      RecordedAdds(env, s.state, s.flights[a.f].call, s.flights[a.f].output, key);
      assert Flying(s, a.f, key) ==> Unstored(s, key);
      forall f | Flying(q, f, key) ensures q.flights[f] == s.flights[f] {}
      if Unstored(s, key) && !Flying(s, a.f, key) {
        var f :| Flying(s, f, key) && s.flights[f].Ran?;
        assert Flying(q, f, key);
      }
    }
  }

  lemma ActAlone(env: Env, s: Server, a: Act, key: string)
    requires key != "" && Alone(s, key) && !Overlaps(env, s, a, key)
    ensures Alone(After(env, s, a), key)
    ensures Counted(s, key) && !Loses(env, s, a, key) ==> Counted(After(env, s, a), key)
  {
    match a
    case Lookup(_, _) => LookupAlone(env, s, a, key);
    case Commit(_) => CommitAlone(env, s, a, key);
    case Store(_) => StoreAlone(env, s, a, key);
  }

  lemma {:induction false} RunAlone(env: Env, db: Db, acts: seq<Act>, key: string)
    requires key != "" && !Overlapped(env, db, acts, key)
    ensures Alone(Serve(env, Start(db), acts), key)
    ensures !LostOne(env, db, acts, key) ==> Counted(Serve(env, Start(db), acts), key)
    decreases |acts|
  {
    hide Alone, Counted, Overlaps, Loses, After;
    if acts == [] {
      StartAlone(db, key);
    } else {
      var front, a := acts[..|acts| - 1], acts[|acts| - 1];
      RunAlone(env, db, front, key);
      ActAlone(env, Serve(env, Start(db), front), a, key);
    }
  }

  lemma StartAlone(db: Db, key: string)
    ensures Alone(Start(db), key) && Counted(Start(db), key)
  {
  }

  /** Over every interleaving in which no lookup of the key misses while another call with it is in
      flight, and no run of it is lost: the key has run at most once, and exactly once if recorded. */
  lemma KeyRunsOnce(env: Env, db: Db, acts: seq<Act>, key: string)
    requires key != "" && !Overlapped(env, db, acts, key) && !LostOne(env, db, acts, key)
    ensures var s := Serve(env, Start(db), acts);
            RanWith(s.state.executed, key) <= 1 && (key in s.state.idem ==> RanWith(s.state.executed, key) == 1) &&
            (key !in s.state.idem && RanWith(s.state.executed, key) == 1 ==> Unstored(s, key))
  {
    RunAlone(env, db, acts, key);
  }

  /** The converse: a key that has run twice, or a committed run that finds its key recorded, means
      that a lookup missed beside a call in flight, or that a run was lost. The second kind of failure
      needs an overlap whether or not anything was lost. */
  lemma SecondRunMeansOverlap(env: Env, db: Db, acts: seq<Act>, key: string)
    requires key != ""
    ensures var s := Serve(env, Start(db), acts);
            (RanWith(s.state.executed, key) > 1 ==> Overlapped(env, db, acts, key) || LostOne(env, db, acts, key)) &&
            (key in s.state.idem && Unstored(s, key) ==> Overlapped(env, db, acts, key))
  {
    if !Overlapped(env, db, acts, key) { RunAlone(env, db, acts, key); }
  }

  lemma CommitsOne(env: Env, s: Server, f: Fid)
    requires f in s.flights && s.flights[f].Missed? && Execute(env, s.state.db, s.flights[f].call).1.Some?
    ensures var call, q := s.flights[f].call, After(env, s, Commit(f));
            q.flights == s.flights[f := Ran(call, Execute(env, s.state.db, call).1.value)] &&
            q.state.executed == s.state.executed + [call] && q.state.idem == s.state.idem
  {
    hide Execute;
  }

  lemma StoresOne(env: Env, s: Server, f: Fid)
    requires Enabled(env, s, Store(f))
    ensures var q := After(env, s, Store(f));
            q.flights == s.flights - {f} && q.state == Recorded(env, s.state, s.flights[f].call, s.flights[f].output).0
  {
    hide Recorded;
  }

  /** A commit whose key is already recorded is not stored and not published. */
  lemma SecondIsRefused(env: Env, s: State, r: Call, output: Output)
    requires r.name in env.actions && r.key != "" && r.key in s.idem
    ensures Recorded(env, s, r, output).0 == s && Recorded(env, s, r, output).1.Refused?
  {
  }

  /** And overlapping misses do run twice, from any state, when both handlers succeed: both commit,
      the one stored later is refused, and the record stays the earlier one's. */
  lemma OverlapRunsTwice(env: Env, s: Server, f: Fid, g: Fid, key: string)
    requires key != "" && key !in s.state.idem && f != g && Flying(s, f, key) && Flying(s, g, key)
    requires s.flights[f].Missed? && s.flights[g].Missed?
    requires s.flights[f].call.name in env.actions && s.flights[g].call.name in env.actions
    requires Execute(env, s.state.db, s.flights[f].call).1.Some?
    requires Execute(env, After(env, s, Commit(f)).state.db, s.flights[g].call).1.Some?
    requires !s.flights[f].call.faults.put &&
             Marshal(Redacted(Execute(env, s.state.db, s.flights[f].call).1.value)).Some?
    ensures var both := After(env, After(env, s, Commit(f)), Commit(g));
            var one := After(env, both, Store(f));
            var two := After(env, one, Store(g));
            RanWith(both.state.executed, key) == RanWith(s.state.executed, key) + 2 &&
            key in one.state.idem && two.state == one.state
  {
    hide Execute, Recorded, After, RanWith, Marshal, Redacted;
    CommitsOne(env, s, f);
    var mid := After(env, s, Commit(f));
    RanWithSnoc(s.state.executed, s.flights[f].call, key);
    CommitsOne(env, mid, g);
    RanWithSnoc(mid.state.executed, s.flights[g].call, key);
    var both := After(env, mid, Commit(g));
    StoresOne(env, both, f);
    RecordedAdds(env, both.state, both.flights[f].call, both.flights[f].output, key);
    var one := After(env, both, Store(f));
    StoresOne(env, one, g);
    SecondIsRefused(env, one.state, one.flights[g].call, one.flights[g].output);
  }

  /** Over every interleaving a record, once made, never changes. */
  lemma {:induction false} RecordStands(env: Env, s: Server, acts: seq<Act>, key: string)
    requires key != "" && key in s.state.idem
    ensures var q := Serve(env, s, acts); key in q.state.idem && q.state.idem[key] == s.state.idem[key]
    decreases |acts|
  {
    if acts == [] {
    } else {
      var front, a := acts[..|acts| - 1], acts[|acts| - 1];
      RecordStands(env, s, front, key);
      var q := Serve(env, s, front);
      if a.Store? && Enabled(env, q, a) {
        RecordedAdds(env, q.state, q.flights[a.f].call, q.flights[a.f].output, key);
      }
    }
  }

  // ---- Overlapping calls run only what was permitted -----------------------------------------------------

  /** Was this call looked up among the first n acts, and permitted in the state at that moment? */
  ghost predicate PermittedBefore(env: Env, db: Db, acts: seq<Act>, r: Call) {
    exists k :: 0 <= k < |acts| && acts[k].Lookup? && acts[k].r == r && !r.dryRun &&
      Permitted(env, Serve(env, Start(db), acts[..k]).state.db, r)
  }

  lemma StillPermitted(env: Env, db: Db, acts: seq<Act>, r: Call)
    requires acts != [] && PermittedBefore(env, db, acts[..|acts| - 1], r)
    ensures PermittedBefore(env, db, acts, r)
  {
    hide Permitted, Serve;
    var front := acts[..|acts| - 1];
    var k :| 0 <= k < |front| && front[k].Lookup? && front[k].r == r &&
      Permitted(env, Serve(env, Start(db), front[..k]).state.db, r);
    assert acts[..k] == front[..k] && acts[k] == front[k];
  }

  /** What one act adds to the calls in flight and to the runs. */
  lemma ActAdmits(env: Env, s: Server, a: Act)
    ensures var q := After(env, s, a);
            (a.Lookup? && a.f !in s.flights ==>
              (a.f in q.flights <==> Permitted(env, s.state.db, a.r) && !a.r.dryRun &&
                                     (a.r.key != "" ==> !a.r.faults.get && a.r.key !in s.state.idem)) &&
              (a.f in q.flights ==> q.flights[a.f] == Missed(a.r))) &&
            (forall f :: f in q.flights ==>
              (f in s.flights && s.flights[f].call == q.flights[f].call) ||
                (a.Lookup? && f == a.f && f !in s.flights)) &&
            (q.state.executed == s.state.executed ||
             (a.Commit? && a.f in s.flights && q.state.executed == s.state.executed + [s.flights[a.f].call]))
  {
    hide Checks, Permitted, Execute, Recorded;
    if Enabled(env, s, a) {
      match a
      case Lookup(_, r) => ChecksPermit(env, s.state.db, r);
      case Commit(_) =>
      case Store(f) => RecordedAdds(env, s.state, s.flights[f].call, s.flights[f].output, "k");
    }
  }

  /** Over every interleaving, a call in flight or run was looked up before, in a state in which it was
      permitted. */
  lemma {:induction false} OnlyPermittedRun(env: Env, db: Db, acts: seq<Act>)
    ensures var s := Serve(env, Start(db), acts);
            (forall f :: f in s.flights ==> PermittedBefore(env, db, acts, s.flights[f].call)) &&
            (forall r :: r in s.state.executed ==> PermittedBefore(env, db, acts, r))
    decreases |acts|
  {
    hide Permitted, PermittedBefore, After;
    if acts == [] {
    } else {
      var front, a := acts[..|acts| - 1], acts[|acts| - 1];
      OnlyPermittedRun(env, db, front);
      var s, q := Serve(env, Start(db), front), Serve(env, Start(db), acts);
      ActAdmits(env, s, a);
      forall f | f in q.flights ensures PermittedBefore(env, db, acts, q.flights[f].call) {
        if f in s.flights && s.flights[f].call == q.flights[f].call {
          StillPermitted(env, db, acts, q.flights[f].call);
        } else {
          JustPermitted(env, db, acts);
        }
      }
      forall r | r in q.state.executed ensures PermittedBefore(env, db, acts, r) {
        StillPermitted(env, db, acts, r);
      }
    }
  }

  lemma JustPermitted(env: Env, db: Db, acts: seq<Act>)
    requires acts != [] && acts[|acts| - 1].Lookup? && !acts[|acts| - 1].r.dryRun
    requires Permitted(env, Serve(env, Start(db), acts[..|acts| - 1]).state.db, acts[|acts| - 1].r)
    ensures PermittedBefore(env, db, acts, acts[|acts| - 1].r)
  {
    assert acts[|acts| - 1].Lookup?;
  }

  /** A run stored without a fault is published as it is when nothing overlaps. */
  lemma StoreIsPublished(env: Env, s: Server, f: Fid)
    requires Enabled(env, s, Store(f))
    requires var r := s.flights[f].call; !r.faults.put && !r.faults.audit && (r.key == "" || r.key !in s.state.idem)
    requires var o := s.flights[f].output; Marshal(if o.Secret? then o.redacted else o.value).Some?
    ensures Published(env, s.state, s.flights[f].call, s.flights[f].output, After(env, s, Store(f)).state)
    ensures After(env, s, Store(f)).flights == s.flights - {f}
  {
  }

  // ---- What leaves no trace ------------------------------------------------------------------------------

  /** A remark on Checks: a dry run records, emits and audits nothing and runs no handler; unless an
      agent's approval gate writes a row, it changes nothing at all. */
  lemma DryRunChangesNothing(env: Env, s: State, r: Call)
    requires r.dryRun
    ensures var q := Step(env, s, r).0; q == s.(db := q.db) && (!r.actor.kind.Agent? ==> q == s)
  {
  }

  /** In every run, the event of a self-scope or private-result action carries no payload, and a
      self-scope one names no organisation and a user. */
  lemma {:induction false} PrivateResultsStayPrivate(env: Env, db: Db, rs: seq<Call>)
    ensures forall e :: e in Run(env, Initial(db), rs).events && e.name in env.actions ==>
              (env.actions[e.name].privateResult || env.actions[e.name].scope.Self? ==> e.payload.None?) &&
              (env.actions[e.name].scope.Self? ==> e.org == "" && e.actor.kind.User?)
  {
    if rs == [] {
    } else {
      PrivateResultsStayPrivate(env, db, rs[..|rs| - 1]);
    }
  }

  // ---- One-time results leave no trace ------------------------------------------------------------------

  /** Results that differ at most in a secret. */
  ghost predicate SameButSecret(a: Output, b: Output) { Redacted(a) == Redacted(b) }

  ghost predicate SameAnswer(a: Answer, b: Answer) {
    match a
    case Refused(error) => b == Refused(error)
    case Returned(output) => b.Returned? && SameButSecret(output, b.output)
  }

  /** Hooks that cannot tell related databases apart. */
  ghost predicate SameHooks(rel: (Db, Db) -> bool, a: Env, b: Env) {
    a.actions == b.actions && (forall r :: a.valid(r) == b.valid(r)) && (forall v :: a.subject(v) == b.subject(v)) &&
    (forall x, y, r :: rel(x, y) ==> a.resolve(x, r) == b.resolve(y, r)) &&
    (forall x, y, r :: rel(x, y) ==> a.allow(x, r) == b.allow(y, r)) &&
    (forall x, y, r :: rel(x, y) ==> a.gate(x, r).0 == b.gate(y, r).0 && rel(a.gate(x, r).1, b.gate(y, r).1)) &&
    (forall x, y, r :: rel(x, y) ==> SameAnswer(a.preview(x, r), b.preview(y, r)))
  }

  ghost predicate SameResult(rel: (Db, Db) -> bool, a: Handled, b: Handled) {
    match a
    case Failed(reason) => b == Failed(reason)
    case Done(db, output) => b.Done? && rel(db, b.db) && SameButSecret(output, b.output)
  }

  /** Handlers whose results have equal redacted forms. */
  ghost predicate SameHandlers(rel: (Db, Db) -> bool, a: Env, b: Env) {
    forall x, y, r :: rel(x, y) ==> SameResult(rel, a.handle(x, r), b.handle(y, r))
  }

  /** Everything stored outside the database is equal. */
  ghost predicate SameTrace(rel: (Db, Db) -> bool, s: State, t: State) {
    rel(s.db, t.db) && s.idem == t.idem && s.events == t.events && s.audit == t.audit && s.executed == t.executed
  }

  lemma SameChecks(rel: (Db, Db) -> bool, a: Env, b: Env, x: Db, y: Db, r: Call)
    requires SameHooks(rel, a, b) && rel(x, y)
    ensures var (x', p) := Checks(a, x, r); var (y', q) := Checks(b, y, r);
            rel(x', y') && (p.Some? <==> q.Some?) && (p.Some? ==> SameAnswer(p.value, q.value))
  {
    if r.name in a.actions { SameGate(rel, a, b, x, y, r); }
  }

  lemma SameGate(rel: (Db, Db) -> bool, a: Env, b: Env, x: Db, y: Db, r: Call)
    requires SameHooks(rel, a, b) && rel(x, y) && r.name in a.actions
    ensures var (x', p) := Gated(a, x, r); var (y', q) := Gated(b, y, r);
            rel(x', y') && (p.Some? <==> q.Some?) && (p.Some? ==> SameAnswer(p.value, q.value))
  {
  }

  lemma SameFinish(rel: (Db, Db) -> bool, a: Env, b: Env, s: State, t: State, r: Call)
    requires SameHooks(rel, a, b) && SameHandlers(rel, a, b) && SameTrace(rel, s, t) && r.name in a.actions
    ensures SameTrace(rel, Finish(a, s, r).0, Finish(b, t, r).0) && SameAnswer(Finish(a, s, r).1, Finish(b, t, r).1)
  {
    assert SameResult(rel, a.handle(s.db, r), b.handle(t.db, r));
  }

  lemma SameStep(rel: (Db, Db) -> bool, a: Env, b: Env, s: State, t: State, r: Call)
    requires SameHooks(rel, a, b) && SameHandlers(rel, a, b) && SameTrace(rel, s, t)
    ensures SameTrace(rel, Step(a, s, r).0, Step(b, t, r).0) && SameAnswer(Step(a, s, r).1, Step(b, t, r).1)
  {
    SameChecks(rel, a, b, s.db, t.db, r);
    if Checks(a, s.db, r).1.None? {
      SameFinish(rel, a, b, s.(db := Checks(a, s.db, r).0), t.(db := Checks(b, t.db, r).0), r);
    }
  }

  /** Two runs of the same calls whose handlers differ only in the secrets they return leave the same
      idempotency records, events and audit log: only the values returned to callers may differ, and
      only in their secrets. Databases are compared by any relation the hooks and handlers respect. */
  lemma {:induction false} SecretsLeaveNoTrace(rel: (Db, Db) -> bool, a: Env, b: Env, s: State, t: State, rs: seq<Call>)
    requires SameHooks(rel, a, b) && SameHandlers(rel, a, b) && SameTrace(rel, s, t)
    ensures SameTrace(rel, Run(a, s, rs), Run(b, t, rs))
    ensures rs != [] ==> var front, r := rs[..|rs| - 1], rs[|rs| - 1];
              SameAnswer(Step(a, Run(a, s, front), r).1, Step(b, Run(b, t, front), r).1)
  {
    if rs == [] {
    } else {
      var front := rs[..|rs| - 1];
      SecretsLeaveNoTrace(rel, a, b, s, t, front);
      SameStep(rel, a, b, Run(a, s, front), Run(b, t, front), rs[|rs| - 1]);
    }
  }
}
