/** Last-owner protection over whole runs: every step that can change who owns an
    organisation, the guard the manual steps take, and what no run of them can do. */
module LastOwner {
  import opened Tenancy
  import opened GroupSync

  datatype Tables = Tables(
    cat: Catalog, rows: Rows, table: seq<Mapping>, invites: Invites, jit: map<Id, JitSettings>)

  /** One transaction. Ids drawn at random are parameters. */
  datatype Step =
    | MemberRemove(org: Id, actorType: string, actor: Id, key: Key)
    | MembershipDelete(org: Id, row: RowId)
    | MembershipCreate(org: Id, actorType: string, actor: Id, key: Key, role: Option<Id>, newRow: RowId)
    | RoleCreate(org: Id, newRole: Id, grants: seq<string>)
    | RoleUpdate(org: Id, edited: Id, grants: seq<string>)
    | Sync(inp: SyncInput, newId: Key -> RowId)
    | JitJoin(org: Id, user: Id, verifiedOrg: Id, newRow: RowId)
    | InviteAccept(token: string, user: Id, now: int, newRow: RowId)
    | SetMappings(mappings: seq<Mapping>)
    | SetJit(org: Id, settings: JitSettings)
    | UserJoin(user: Id)

  datatype Outcome = Refused | Done(after: Tables)

  ghost predicate Valid(s: Tables) {
    UniqueRows(s.rows)
  }

  function Insert(s: Tables, id: RowId, m: Membership): Outcome {
    match InsertRow(s.rows, id, m) case None => Refused case Some(rows) => Done(s.(rows := rows))
  }

  function RemoveSlot(rows: Rows, org: Id, actorType: string, actor: Id, key: Key): Rows {
    map i | i in rows && !(rows[i].org == org && rows[i].actorType == actorType && rows[i].actor == actor &&
      rows[i].key == key) :: rows[i]
  }

  function RemoveRow(rows: Rows, org: Id, id: RowId): Rows {
    map i | i in rows && !(i == id && rows[i].org == org) :: rows[i]
  }

  /** The guard of the manual steps: an org that had an owner must still have one, or the
      transaction is rolled back. */
  function Guarded(s: Tables, org: Id, after: Tables): Outcome {
    if HasOwner(s.cat, s.rows, org) && !HasOwner(after.cat, after.rows, org) then Refused else Done(after)
  }

  function WithGrants(s: Tables, role: Id, grants: seq<string>): Tables
    requires role in s.cat.roles
  {
    s.(cat := s.cat.(roles := s.cat.roles[role := s.cat.roles[role].(grants := Readable(grants))]))
  }

  ghost function Apply(s: Tables, step: Step): Outcome
    requires Valid(s)
  {
    match step
    case MemberRemove(org, actorType, actor, key) =>
      Guarded(s, org, s.(rows := RemoveSlot(s.rows, org, actorType, actor, key)))
    case MembershipDelete(org, row) =>
      Guarded(s, org, s.(rows := RemoveRow(s.rows, org, row)))
    case MembershipCreate(org, actorType, actor, key, role, id) =>
      Insert(s, id, Membership(org, actorType, actor, key, role, Manual))
    case RoleCreate(org, role, grants) =>
      if role in s.cat.roles then Refused
      else Done(s.(cat := s.cat.(roles := s.cat.roles[role := Role(org, false, Readable(grants))])))
    case RoleUpdate(org, role, grants) =>
      if role in s.cat.roles && s.cat.roles[role].org == org then Guarded(s, org, WithGrants(s, role, grants))
        else Refused
    case Sync(inp, newId) =>
      if NewIds(newId, s.rows) then Done(s.(rows := SyncOutcome(s.cat, s.table, s.rows, [], inp, newId).rows))
        else Refused
    case JitJoin(org, user, verifiedOrg, id) =>
      var role := JitRole(s.cat, s.jit, org);
      if org == "" || org == PLATFORM_ORG || role.None? || verifiedOrg != org then Done(s)
      else if Belongs(s.rows, org, user) then Done(s)
      else Insert(s, id, Membership(org, "user", user, OrgKey(org), role, Jit))
    case InviteAccept(token, user, now, id) =>
      match AcceptInvite(s.invites, s.rows, token, user, now, id) {
      case None => Refused
      case Some(after) => Done(s.(invites := after.0, rows := after.1))
      }
    case SetMappings(mappings) => Done(s.(table := mappings))
    case SetJit(org, settings) => Done(s.(jit := s.jit[org := settings]))
    case UserJoin(user) => Done(s.(cat := s.cat.(liveUsers := s.cat.liveUsers + {user})))
  }

  /** A refused transaction leaves the tables as they were. */
  ghost function Next(s: Tables, step: Step): Tables
    requires Valid(s)
  {
    match Apply(s, step) case Refused => s case Done(after) => after
  }

  predicate Owned(s: Tables, org: Id) { HasOwner(s.cat, s.rows, org) }

  lemma SyncOutcomeSound(s: Tables, inp: SyncInput, newId: Key -> RowId, org: Id)
    requires Valid(s) && NewIds(newId, s.rows)
    ensures var after := SyncOutcome(s.cat, s.table, s.rows, [], inp, newId).rows;
            UniqueRows(after) && (HasOwner(s.cat, s.rows, org) ==> HasOwner(s.cat, after, org))
  {
    if !Skips(inp) {
      var t, ks := TaskFor(s.cat, s.table, s.rows, inp, newId), OrderFor(s.cat, s.table, inp);
      TaskForIsValid(s.cat, s.table, s.rows, inp, newId);
      var s0 := State(s.rows, [], NOTHING);
      SyncFinal(t, ks, StaleIds(t), s0);
      var after := Removes(t, StaleIds(t), Upserts(t, ks, s0)).rows;
      SyncKeepsRowsUnique(t, after);
      if HasOwner(s.cat, s.rows, org) { SyncKeepsOwners(t, after, org); }
    }
  }

  /** The table's uniqueness constraint holds after every step. */
  lemma NextValid(s: Tables, step: Step)
    requires Valid(s)
    ensures Valid(Next(s, step))
  {
    if step.Sync? && NewIds(step.newId, s.rows) {
      SyncOutcomeSound(s, step.inp, step.newId, "");
    }
  }

  /** An edit of another organisation's role that every owner of org depends on: the editor
      owns the role and takes "*" out of it, no owner of org holds any other role, and the
      editor itself has no owner or keeps one through another role. */
  ghost predicate StripsElsewhere(s: Tables, step: Step, org: Id) {
    step.RoleUpdate? && step.org != org && step.edited in s.cat.roles && s.cat.roles[step.edited].org == step.org &&
    step.edited != OWNER_ROLE && (forall g :: g in step.grants ==> TrimSpace(g) != "*") &&
    (forall id :: id in s.rows && IsOwner(s.cat, s.rows[id], org) ==> s.rows[id].role == Some(step.edited)) &&
    (Owned(s, step.org) ==>
      exists id :: id in s.rows && IsOwner(s.cat, s.rows[id], step.org) && s.rows[id].role != Some(step.edited))
  }

  /** Editing a role's grants leaves an owner row an owner exactly when the row holds
      another role or the edited role still is an owner role. */
  lemma GrantsDecide(s: Tables, role: Id, grants: seq<string>, m: Membership, org: Id)
    requires role in s.cat.roles
    ensures IsOwner(WithGrants(s, role, grants).cat, m, org) <==>
            if m.role == Some(role)
            then OwnerCandidate(s.cat, m, org) && (role == OWNER_ROLE || exists g :: g in grants && TrimSpace(g) == "*")
            else IsOwner(s.cat, m, org)
  {
  }

  /** One step of any kind takes an organisation's ownership away exactly when it is a role
      edit by another organisation that all its owners depend on. */
  lemma StepKeepsOwner(s: Tables, step: Step, org: Id)
    requires Valid(s) && Owned(s, org)
    ensures Owned(Next(s, step), org) <==> !StripsElsewhere(s, step, org)
  {
    hide OwnerEquivalent, RoleUsable, SyncOutcome;
    if step.RoleUpdate? {
      RoleEditKeepsOwner(s, step, org);
    } else if step.Sync? {
      if NewIds(step.newId, s.rows) { SyncOutcomeSound(s, step.inp, step.newId, org); }
    } else {
      var o :| o in s.rows && IsOwner(s.cat, s.rows[o], org);
      var after := Next(s, step);
      if o in after.rows {
        assert IsOwner(after.cat, after.rows[o], org);
      }
    }
  }

  lemma RoleEditKeepsOwner(s: Tables, step: Step, org: Id)
    requires Valid(s) && Owned(s, org) && step.RoleUpdate?
    ensures Owned(Next(s, step), org) <==> !StripsElsewhere(s, step, org)
  {
    var role, grants := step.edited, step.grants;
    if role in s.cat.roles && s.cat.roles[role].org == step.org {
      var after := WithGrants(s, role, grants);
      forall id, who | id in s.rows
        ensures IsOwner(after.cat, s.rows[id], who) <==>
            if s.rows[id].role == Some(role)
            then OwnerCandidate(s.cat, s.rows[id], who) &&
              (role == OWNER_ROLE || exists g :: g in grants && TrimSpace(g) == "*")
            else IsOwner(s.cat, s.rows[id], who)
      {
        GrantsDecide(s, role, grants, s.rows[id], who);
      }
      if StripsElsewhere(s, step, org) {
        if Owned(s, step.org) {
          var k :| k in s.rows && IsOwner(s.cat, s.rows[k], step.org) && s.rows[k].role != Some(role);
          assert IsOwner(after.cat, after.rows[k], step.org);
        }
      } else if step.org != org {
        var o :| o in s.rows && IsOwner(s.cat, s.rows[o], org);
        if !Owned(after, org) {
          assert !IsOwner(after.cat, after.rows[o], org);
        }
      }
    }
  }

  // ---- Which rows a step touches --------------------------------------------------------

  /** Is row i one the removal names: by slot, or by its id? */
  ghost predicate Named(s: Tables, step: Step, i: RowId)
    requires i in s.rows && (step.MemberRemove? || step.MembershipDelete?)
  {
    var m := s.rows[i];
    if step.MembershipDelete? then i == step.row && m.org == step.org
    else m == Membership(step.org, step.actorType, step.actor, step.key, m.role, m.source)
  }

  /** A removal takes the rows it names and no others, and nothing at all exactly when they are all
      the owner rows its organisation has. */
  lemma RemovalTakesNamed(s: Tables, step: Step)
    requires Valid(s) && (step.MemberRemove? || step.MembershipDelete?)
    ensures var last := Owned(s, step.org) && forall o :: o in s.rows && IsOwner(s.cat, s.rows[o], step.org) ==>
              Named(s, step, o);
            var q := Next(s, step);
            (Apply(s, step).Refused? <==> last) && q == s.(rows := q.rows) &&
            (forall i :: i in q.rows <==> i in s.rows && (last || !Named(s, step, i))) &&
            (forall i :: i in q.rows ==> q.rows[i] == s.rows[i])
  {
    hide IsOwner;
    var after := if step.MemberRemove? then RemoveSlot(s.rows, step.org, step.actorType, step.actor, step.key)
      else RemoveRow(s.rows, step.org, step.row);
    assert forall i :: i in after <==> i in s.rows && !Named(s, step, i);
    assert forall i :: i in after ==> after[i] == s.rows[i];
  }

  /** A role edit replaces the grants of its own organisation's role and nothing else. It is refused
      for any other role, and when it would take the last owner of the editing organisation. */
  lemma RoleEditChangesGrants(s: Tables, step: Step)
    requires Valid(s) && step.RoleUpdate?
    ensures var own := step.edited in s.cat.roles && s.cat.roles[step.edited].org == step.org;
            var last := own && Owned(s, step.org) && step.edited != OWNER_ROLE &&
              (forall g :: g in step.grants ==> TrimSpace(g) != "*") &&
              forall o :: o in s.rows && IsOwner(s.cat, s.rows[o], step.org) ==> s.rows[o].role == Some(step.edited);
            (Apply(s, step).Refused? <==> !own || last) &&
            Next(s, step) ==
              if !own || last then s
              else s.(cat := s.cat.(roles := s.cat.roles[step.edited :=
                Role(step.org, s.cat.roles[step.edited].isSystem, Readable(step.grants))]))
  {
    hide OwnerEquivalent, OwnerCandidate;
    if step.edited in s.cat.roles && s.cat.roles[step.edited].org == step.org {
      forall i | i in s.rows
        ensures IsOwner(WithGrants(s, step.edited, step.grants).cat, s.rows[i], step.org) <==>
            if s.rows[i].role == Some(step.edited)
            then OwnerCandidate(s.cat, s.rows[i], step.org) &&
              (step.edited == OWNER_ROLE || exists g :: g in step.grants && TrimSpace(g) == "*")
            else IsOwner(s.cat, s.rows[i], step.org)
      {
        GrantsDecide(s, step.edited, step.grants, s.rows[i], step.org);
      }
      if Owned(s, step.org) { GuardOfEdit(s, step); }
    }
  }

  lemma GuardOfEdit(s: Tables, step: Step)
    requires step.RoleUpdate? && step.edited in s.cat.roles && Owned(s, step.org)
    requires var after := WithGrants(s, step.edited, step.grants);
             forall i :: i in s.rows ==> (IsOwner(after.cat, s.rows[i], step.org) <==>
               if s.rows[i].role == Some(step.edited)
               then OwnerCandidate(s.cat, s.rows[i], step.org) &&
                 (step.edited == OWNER_ROLE || exists g :: g in step.grants && TrimSpace(g) == "*")
               else IsOwner(s.cat, s.rows[i], step.org))
    ensures Owned(WithGrants(s, step.edited, step.grants), step.org) <==>
            step.edited == OWNER_ROLE || (exists g :: g in step.grants && TrimSpace(g) == "*") ||
            exists o :: o in s.rows && IsOwner(s.cat, s.rows[o], step.org) && s.rows[o].role != Some(step.edited)
  {
    hide OwnerEquivalent, OwnerCandidate;
  }

  /** The steps that add members add one row, the one they describe, where its id and its slot are
      free, and change no other. */
  lemma CreateAddsItsRow(s: Tables, step: Step)
    requires Valid(s) && step.MembershipCreate?
    ensures var m := Membership(step.org, step.actorType, step.actor, step.key, step.role, Manual);
            Next(s, step) ==
              if step.newRow in s.rows || exists i :: i in s.rows && SameSlot(s.rows[i], m) then s
              else s.(rows := s.rows[step.newRow := m])
  {
  }

  /** An accepted invite is spent, and gives the role, in the place, that it names; one that is not
      pending gives nothing. */
  lemma InviteGivesWhatItNames(s: Tables, step: Step)
    requires Valid(s) && step.InviteAccept?
    ensures var q := Next(s, step);
            if q == s then Apply(s, step).Refused?
            else
              step.token in s.invites && step.token != "" && !s.invites[step.token].accepted &&
              step.now < s.invites[step.token].expires && step.newRow !in s.rows &&
              var inv := s.invites[step.token];
              q == s.(invites := s.invites[step.token := inv.(accepted := true)],
                      rows := s.rows[step.newRow :=
                        Membership(inv.org, "user", step.user, inv.key, inv.role, Source.Invite)])
    ensures var p := step.token != "" && step.token in s.invites && !s.invites[step.token].accepted;
            p && step.now < s.invites[step.token].expires && step.newRow !in s.rows &&
            (forall i :: i in s.rows ==> var inv, m := s.invites[step.token], s.rows[i];
              !(m.org == inv.org && m.actorType == "user" && m.actor == step.user && m.key == inv.key)) ==>
              Next(s, step) != s
  {
    if PendingInvite(s.invites, step.token, step.now) {
      var inv := s.invites[step.token];
      assert s.invites[step.token := inv.(accepted := true)][step.token] != s.invites[step.token];
    }
  }

  /** Over any run, an invite once spent stays spent: nobody is let in by it again. */
  lemma {:induction false} InviteIsSpentOnce(s: Tables, steps: seq<Step>, step: Step)
    requires Valid(s) && step.InviteAccept? && step.token in s.invites && s.invites[step.token].accepted
    ensures Apply(Run(s, steps), step).Refused?
    decreases |steps|
  {
    if steps == [] {
    } else {
      NextValid(s, steps[0]);
      StepKeepsSpent(s, steps[0], step.token);
      InviteIsSpentOnce(Next(s, steps[0]), steps[1..], step);
    }
  }

  lemma StepKeepsSpent(s: Tables, step: Step, token: string)
    requires Valid(s) && token in s.invites && s.invites[token].accepted
    ensures token in Next(s, step).invites && Next(s, step).invites[token].accepted
  {
    hide SyncOutcome, JitRole;
  }

  /** Joining just in time gives exactly this: the default role of an organisation that has turned it
      on and that verified the user, to a user who is not a member yet. Never an owner role. */
  lemma JitGivesDefaultRole(s: Tables, step: Step)
    requires Valid(s) && step.JitJoin?
    ensures var on := step.org in s.jit && s.jit[step.org].enabled && s.jit[step.org].defaultRole.Some?;
            var role := if on then s.jit[step.org].defaultRole.value else "";
            var m := Membership(step.org, "user", step.user, Key("org", step.org), Some(role), Jit);
            var joins := on && RoleUsable(s.cat, step.org, role) && !OwnerEquivalent(role, s.cat.roles[role]) &&
              step.verifiedOrg == step.org && step.newRow !in s.rows &&
              forall i :: i in s.rows ==> !SameSlot(s.rows[i], m);
            Next(s, step) == (if joins then s.(rows := s.rows[step.newRow := m]) else s) &&
            (joins ==> step.org !in {"", PLATFORM_ORG} && forall org :: !IsOwner(s.cat, m, org))
  {
    hide OwnerEquivalent;
  }

  // ---- Whole runs ---------------------------------------------------------------------

  ghost function Run(s: Tables, steps: seq<Step>): (after: Tables)
    requires Valid(s)
    ensures Valid(after)
    decreases |steps|
  {
    if steps == [] then s
    else NextValid(s, steps[0]); Run(Next(s, steps[0]), steps[1..])
  }

  /** No step of the run is a stripping edit at the moment it is taken. */
  ghost predicate NeverStripped(s: Tables, steps: seq<Step>, org: Id)
    requires Valid(s)
    decreases |steps|
  {
    steps == [] ||
    (!StripsElsewhere(s, steps[0], org) && (NextValid(s, steps[0]); NeverStripped(Next(s, steps[0]), steps[1..], org)))
  }

  /** Over every run of the steps, an organisation that has an owner keeps having one, as
      long as no other organisation edits the role all its owners hold. */
  lemma {:induction false} RunKeepsOwner(s: Tables, steps: seq<Step>, org: Id)
    requires Valid(s) && Owned(s, org) && NeverStripped(s, steps, org)
    ensures Owned(Run(s, steps), org)
    decreases |steps|
  {
    if steps == [] {
    } else {
      StepKeepsOwner(s, steps[0], org);
      NextValid(s, steps[0]);
      RunKeepsOwner(Next(s, steps[0]), steps[1..], org);
    }
  }

  /** In particular in every run in which roles are edited by org itself only. */
  lemma {:induction false} OwnRunsKeepOwner(s: Tables, steps: seq<Step>, org: Id)
    requires Valid(s) && Owned(s, org)
    requires forall i :: 0 <= i < |steps| && steps[i].RoleUpdate? ==> steps[i].org == org
    ensures Owned(Run(s, steps), org)
    decreases |steps|
  {
    if steps == [] {
    } else {
      StepKeepsOwner(s, steps[0], org);
      NextValid(s, steps[0]);
      OwnRunsKeepOwner(Next(s, steps[0]), steps[1..], org);
    }
  }

  /** The exception is real: membership.create takes any role id, so an organisation's only
      owner can hold a role another organisation owns, and the other one's role.update is
      checked against the editor's owners only. */
  lemma ForeignEditCanStrip() returns (s: Tables, step: Step, org: Id)
    ensures Valid(s) && Owned(s, org) && !Owned(Next(s, step), org)
  {
    org := "a";
    var m := Membership("a", "user", "u", OrgKey("a"), Some("r"), Manual);
    s := Tables(Catalog(map["r" := Role("b", false, Readable(["*"]))], {"u"}, {}, {}), map[1 := m], [], map[], map[]);
    step := RoleUpdate("b", "r", []);
    assert TrimSpace("*") == "*";
    assert "*" in s.cat.roles["r"].grants.list;
    assert IsOwner(s.cat, s.rows[1], org);
    assert StripsElsewhere(s, step, org);
    StepKeepsOwner(s, step, org);
  }

  // ---- The manual steps as handlers -----------------------------------------------------

  class Database {
    var t: Tables

    constructor (t: Tables)
      ensures this.t == t
    {
      this.t := t;
    }

    /** A handler that errs is rolled back: the transaction's snapshot comes back. */
    method Finish(guard: OwnerGuard, snapshot: Tables) returns (err: bool)
      requires guard.db == this
      modifies this`t
      ensures err <==> guard.had && !HasOwner(old(t.cat), old(t.rows), guard.org)
      ensures t == if err then snapshot else old(t)
    {
      var ok := guard.Check();
      err := !ok;
      if err { t := snapshot; }
    }

    method HandleMemberRemove(org: Id, actorType: string, actor: Id, key: Key) returns (err: bool)
      requires Valid(t)
      modifies this`t
      ensures var step := MemberRemove(org, actorType, actor, key);
              t == Next(old(t), step) && (err <==> Apply(old(t), step).Refused?)
    {
      var snapshot := t;
      var guard := new OwnerGuard(this, org);
      t := t.(rows := RemoveSlot(t.rows, org, actorType, actor, key));
      err := Finish(guard, snapshot);
    }

    method HandleMembershipDelete(org: Id, row: RowId) returns (err: bool)
      requires Valid(t)
      modifies this`t
      ensures t == Next(old(t), MembershipDelete(org, row)) &&
              (err <==> Apply(old(t), MembershipDelete(org, row)).Refused?)
    {
      var snapshot := t;
      var guard := new OwnerGuard(this, org);
      t := t.(rows := RemoveRow(t.rows, org, row));
      err := Finish(guard, snapshot);
    }

    method HandleRoleUpdate(org: Id, role: Id, grants: seq<string>) returns (err: bool)
      requires Valid(t)
      modifies this`t
      ensures t == Next(old(t), RoleUpdate(org, role, grants)) &&
              (err <==> Apply(old(t), RoleUpdate(org, role, grants)).Refused?)
    {
      if role !in t.cat.roles || t.cat.roles[role].org != org { return true; }
      if t.cat.roles[role].isSystem && t.cat.roles[role].org != org {
        // Copy-on-edit of a system role: the lookup binds the org, so it never gets here.
        assert false;
      }
      var snapshot := t;
      var guard := new OwnerGuard(this, org);
      t := WithGrants(t, role, grants);
      err := Finish(guard, snapshot);
    }
  }

  class OwnerGuard {
    const db: Database
    const org: Id
    const had: bool

    constructor (db: Database, org: Id)
      ensures this.db == db && this.org == org
      ensures had <==> HasOwner(db.t.cat, db.t.rows, org)
    {
      this.db, this.org := db, org;
      var any, last := ReadOwners(db.t.cat, db.t.rows, org, 0);
      this.had := any;
    }

    method Check() returns (ok: bool)
      ensures ok <==> !had || HasOwner(db.t.cat, db.t.rows, org)
    {
      if !had { return true; }
      var any, last := ReadOwners(db.t.cat, db.t.rows, org, 0);
      ok := any;
    }
  }
}
