/** Group sync: the user's source='idp' memberships in one organisation are made to
    match the organisation's group mappings, without taking away its last owner. */
module GroupSync {
  import opened Tenancy

  datatype Synced = Synced(key: Key, role: Id)

  datatype AuditRow =
    | OwnerPreserved(org: Id, user: Id, row: RowId)
    | MembershipSynced(org: Id, user: Id, provider: Id, added: seq<Synced>, updated: seq<Synced>, removed: seq<Synced>)

  datatype SyncInput = SyncInput(org: Id, user: Id, provider: Id, groups: seq<string>)

  datatype SyncResult = SyncResult(added: seq<Synced>, updated: seq<Synced>, removed: seq<Synced>, kept: seq<Synced>) {
    predicate Changed() {
      |added| + |updated| + |removed| > 0
    }
  }

  const NOTHING := SyncResult([], [], [], [])

  // ---- The plan: which role each resource should carry -------------------------------

  /** ListIdPGroupMappingsForProvider: this org's mappings for the provider or for every
      provider, in the table's (oldest first) order. */
  function ForProvider(table: seq<Mapping>, org: Id, provider: Id): seq<Mapping> {
    if table == [] then []
    else
      var last := table[|table| - 1];
      ForProvider(table[..|table| - 1], org, provider) +
      (if last.org == org && (last.provider.None? || last.provider.value == provider) then [last] else [])
  }

  /** The trimmed, non-empty group values. */
  function GroupSet(groups: seq<string>): set<string> {
    set g | g in groups && TrimSpace(g) != "" :: TrimSpace(g)
  }

  /** A mapping applies when its group matches and its role and resource are still there. */
  predicate Applies(cat: Catalog, org: Id, groups: set<string>, m: Mapping) {
    m.group in groups && RoleUsable(cat, org, m.role) && ResourceUsable(cat, org, m.key)
  }

  datatype Plan = Plan(desired: map<Key, Id>, order: seq<Key>)

  function PlanFor(cat: Catalog, org: Id, groups: set<string>, ms: seq<Mapping>): (p: Plan)
    ensures forall k :: k in p.desired <==> k in p.order
    ensures Distinct(p.order)
    ensures forall k :: k in p.desired ==> RoleUsable(cat, org, p.desired[k])
  {
    if ms == [] then Plan(map[], [])
    else
      var p, m := PlanFor(cat, org, groups, ms[..|ms| - 1]), ms[|ms| - 1];
      if Applies(cat, org, groups, m) && m.key !in p.desired then
        assert (p.order + [m.key])[..|p.order|] == p.order;
        Plan(p.desired[m.key := m.role], p.order + [m.key])
      else p
  }

  /** ms[i] is the oldest applying mapping of its resource. */
  ghost predicate Oldest(cat: Catalog, org: Id, groups: set<string>, ms: seq<Mapping>, i: nat)
    requires i < |ms|
  {
    Applies(cat, org, groups, ms[i]) &&
    forall j :: 0 <= j < i && ms[j].key == ms[i].key ==> !Applies(cat, org, groups, ms[j])
  }

  lemma {:induction false} ApplyingIsDesired(cat: Catalog, org: Id, groups: set<string>, ms: seq<Mapping>, i: nat)
    requires i < |ms| && Applies(cat, org, groups, ms[i])
    ensures ms[i].key in PlanFor(cat, org, groups, ms).desired
  {
    if i < |ms| - 1 {
      ApplyingIsDesired(cat, org, groups, ms[..|ms| - 1], i);
    }
  }

  /** Every desired resource carries the role of the oldest mapping that applies to it. */
  lemma {:induction false} DesiredFromOldest(cat: Catalog, org: Id, groups: set<string>, ms: seq<Mapping>, k: Key)
    returns (i: nat)
    requires k in PlanFor(cat, org, groups, ms).desired
    ensures i < |ms| && ms[i].key == k && Oldest(cat, org, groups, ms, i)
    ensures PlanFor(cat, org, groups, ms).desired[k] == ms[i].role
  {
    var front := ms[..|ms| - 1];
    if k in PlanFor(cat, org, groups, front).desired {
      i := DesiredFromOldest(cat, org, groups, front, k);
      assert forall j :: 0 <= j <= i ==> front[j] == ms[j];
    } else {
      i := |ms| - 1;
      forall j | 0 <= j < i && ms[j].key == k ensures !Applies(cat, org, groups, ms[j]) {
        if Applies(cat, org, groups, ms[j]) {
          ApplyingIsDesired(cat, org, groups, front, j);
        }
      }
    }
  }

  /** The plan is the one the documentation describes: of several mappings onto one
      resource, the oldest that applies wins. */
  lemma OldestMappingWins(cat: Catalog, org: Id, groups: set<string>, ms: seq<Mapping>, i: nat)
    requires i < |ms| && Oldest(cat, org, groups, ms, i)
    ensures ms[i].key in PlanFor(cat, org, groups, ms).desired
    ensures PlanFor(cat, org, groups, ms).desired[ms[i].key] == ms[i].role
  {
    ApplyingIsDesired(cat, org, groups, ms, i);
    var j := DesiredFromOldest(cat, org, groups, ms, ms[i].key);
    assert j == i;
  }

  // ---- The rows of one user in one organisation ---------------------------------------

  predicate Mine(m: Membership, org: Id, user: Id) {
    m.org == org && m.actorType == "user" && m.actor == user
  }

  /** The snapshot taken before any write: the user's rows in the org, by resource. */
  ghost predicate SnapOf(rows: Rows, org: Id, user: Id, snap: map<Key, RowId>) {
    (forall k :: k in snap ==> snap[k] in rows && Mine(rows[snap[k]], org, user) && rows[snap[k]].key == k) &&
    (forall id :: id in rows && Mine(rows[id], org, user) ==> rows[id].key in snap && snap[rows[id].key] == id)
  }

  ghost predicate NewIds(newId: Key -> RowId, rows: Rows) {
    (forall k :: newId(k) !in rows) && (forall k, l :: newId(k) == newId(l) ==> k == l)
  }

  /** What one sync works on. newId(k) is the random id of a row inserted for resource k. */
  datatype Task = Task(
    cat: Catalog, org: Id, user: Id, before: Rows, snap: map<Key, RowId>, desired: map<Key, Id>, newId: Key -> RowId)
  {
    ghost predicate Valid() {
      SnapOf(before, org, user, snap) && NewIds(newId, before) &&
      (forall k :: k in desired ==> RoleUsable(cat, org, desired[k]))
    }

    function NewRow(k: Key): Membership
      requires k in desired
    {
      Membership(org, "user", user, k, Some(desired[k]), IdP)
    }

    /** The rows group sync may touch. */
    ghost predicate Synceable(id: RowId) {
      id in before && Mine(before[id], org, user) && before[id].source == IdP
    }

    /** The one exception: the org's only owner row, which the plan would remove or demote. */
    ghost predicate Preserved(id: RowId) {
      Synceable(id) && before[id].key == OrgKey(org) && Owners(cat, before, org) == {id} &&
      !(OrgKey(org) in desired && desired[OrgKey(org)] in cat.roles &&
        OwnerEquivalent(desired[OrgKey(org)], cat.roles[desired[OrgKey(org)]]))
    }
  }

  function RoleText(role: Option<Id>): Id { if role.Some? then role.value else "" }

  // ---- The writes, one at a time ------------------------------------------------------

  datatype State = State(rows: Rows, audit: seq<AuditRow>, res: SyncResult)

  /** keepLastOwner: newRole is None for a removal. */
  predicate KeepsLastOwner(cat: Catalog, rows: Rows, org: Id, id: RowId, m: Membership, newRole: Option<Id>)
    requires newRole.Some? ==> newRole.value in cat.roles
  {
    m.key == OrgKey(org) &&
    !(newRole.Some? && OwnerEquivalent(newRole.value, cat.roles[newRole.value])) &&
    Owners(cat, rows, org) == {id}
  }

  /** UpdateIdPMembershipRole and DeleteIdPMembership: both write only source='idp' rows of the org. */
  function UpdateIdPRole(rows: Rows, id: RowId, org: Id, role: Id): Rows {
    if id in rows && rows[id].org == org &&
      rows[id].source == IdP then rows[id := rows[id].(role := Some(role))] else rows
  }

  function DeleteIdP(rows: Rows, id: RowId, org: Id): Rows {
    if id in rows && rows[id].org == org && rows[id].source == IdP then map i | i in rows &&
      i != id :: rows[i] else rows
  }

  function Upsert(t: Task, k: Key, s: State): State
    requires k in t.desired && t.desired[k] in t.cat.roles && (k in t.snap ==> t.snap[k] in t.before)
  {
    var role := t.desired[k];
    var sm := Synced(k, role);
    if k !in t.snap then
      s.(rows := s.rows[t.newId(k) := t.NewRow(k)], res := s.res.(added := s.res.added + [sm]))
    else
      var cur := t.before[t.snap[k]];
      if cur.source != IdP then s.(res := s.res.(kept := s.res.kept + [sm]))
      else if cur.role == Some(role) then s
      else if KeepsLastOwner(t.cat, s.rows, t.org, t.snap[k], cur, Some(role)) then
        s.(audit := s.audit + [OwnerPreserved(t.org, t.user, t.snap[k])], res := s.res.(kept := s.res.kept + [sm]))
      else
        s.(rows := UpdateIdPRole(s.rows, t.snap[k], t.org, role), res := s.res.(updated := s.res.updated + [sm]))
  }

  ghost predicate Doable(t: Task, ks: seq<Key>) {
    (forall k :: k in ks ==> k in t.desired && t.desired[k] in t.cat.roles) &&
    (forall k :: k in t.snap ==> t.snap[k] in t.before)
  }

  ghost function Upserts(t: Task, ks: seq<Key>, s: State): State
    requires Doable(t, ks)
  {
    if ks == [] then s
    else
      var front, k := ks[..|ks| - 1], ks[|ks| - 1];
      assert forall l :: l in front ==> l in ks;
      Upsert(t, k, Upserts(t, front, s))
  }

  function Remove(t: Task, id: RowId, s: State): State
    requires id in t.before
  {
    var m := t.before[id];
    var sm := Synced(m.key, RoleText(m.role));
    if KeepsLastOwner(t.cat, s.rows, t.org, id, m, None) then
      s.(audit := s.audit + [OwnerPreserved(t.org, t.user, id)], res := s.res.(kept := s.res.kept + [sm]))
    else
      s.(rows := DeleteIdP(s.rows, id, t.org), res := s.res.(removed := s.res.removed + [sm]))
  }

  ghost function Removes(t: Task, stale: seq<RowId>, s: State): State
    requires forall id :: id in stale ==> id in t.before
  {
    if stale == [] then s
    else
      var front, id := stale[..|stale| - 1], stale[|stale| - 1];
      assert forall i :: i in front ==> i in stale;
      Remove(t, id, Removes(t, front, s))
  }

  // ---- What the upserts leave ---------------------------------------------------------

  ghost predicate Untouched(t: Task, id: RowId) {
    !t.Synceable(id) || t.Preserved(id)
  }

  /** The row id once the desired resources ks have been visited. */
  ghost function OldRowAt(t: Task, ks: seq<Key>, id: RowId): Membership
    requires id in t.before && Doable(t, ks)
  {
    var m := t.before[id];
    if !Untouched(t, id) && m.key in ks then m.(role := Some(t.desired[m.key])) else m
  }

  ghost predicate OldRowsAt(t: Task, ks: seq<Key>, rows: Rows)
    requires Doable(t, ks)
  {
    forall id :: id in t.before ==> id in rows && rows[id] == OldRowAt(t, ks, id)
  }

  /** A row inserted for one of the resources ks. */
  ghost predicate Inserted(t: Task, ks: seq<Key>, id: RowId, m: Membership)
    requires Doable(t, ks)
  {
    m.key in ks && m.key !in t.snap && id == t.newId(m.key) && m == t.NewRow(m.key)
  }

  ghost predicate NewRowsAt(t: Task, ks: seq<Key>, rows: Rows)
    requires Doable(t, ks)
  {
    (forall k :: k in ks && k !in t.snap ==> t.newId(k) in rows && rows[t.newId(k)] == t.NewRow(k)) &&
    (forall id :: id in rows && id !in t.before ==> Inserted(t, ks, id, rows[id]))
  }

  /** Until the org-level key is reached, the owner rows are those of the start. */
  lemma OwnersUnmoved(t: Task, ks: seq<Key>, rows: Rows)
    requires t.Valid() && Doable(t, ks) && OldRowsAt(t, ks, rows) && NewRowsAt(t, ks, rows)
    requires OrgKey(t.org) !in ks
    ensures Owners(t.cat, rows, t.org) == Owners(t.cat, t.before, t.org)
  {
  }

  lemma {:induction false} UpsertsSpec(t: Task, ks: seq<Key>, s: State)
    requires t.Valid() && Doable(t, ks) && Distinct(ks) && s.rows == t.before
    ensures OldRowsAt(t, ks, Upserts(t, ks, s).rows) && NewRowsAt(t, ks, Upserts(t, ks, s).rows)
  {
    if ks == [] {
    } else {
      var front, k := ks[..|ks| - 1], ks[|ks| - 1];
      assert ks == front + [k];
      UpsertsSpec(t, front, s);
      var p := Upserts(t, front, s);
      if k !in t.snap {
        InsertStep(t, front, k, p);
      } else {
        UpdateStep(t, front, k, p);
      }
    }
  }

  lemma InsertStep(t: Task, ks: seq<Key>, k: Key, p: State)
    requires t.Valid() && Doable(t, ks + [k]) && Doable(t, ks) && k !in t.snap && k !in ks && k in ks + [k]
    requires OldRowsAt(t, ks, p.rows) && NewRowsAt(t, ks, p.rows)
    ensures var q := Upsert(t, k, p); OldRowsAt(t, ks + [k], q.rows) && NewRowsAt(t, ks + [k], q.rows)
  {
    var q := Upsert(t, k, p);
    forall id | id in t.before ensures id in q.rows && q.rows[id] == OldRowAt(t, ks + [k], id) {
      assert t.Synceable(id) ==> t.before[id].key != k;
    }
  }

  /** Asking keepLastOwner in the middle of the run is asking about the start. */
  lemma KeepIsPreserved(t: Task, ks: seq<Key>, rows: Rows, id: RowId)
    requires t.Valid() && Doable(t, ks) && OldRowsAt(t, ks, rows) && NewRowsAt(t, ks, rows)
    requires t.Synceable(id) && t.before[id].key !in ks
    ensures var m := t.before[id];
            var newRole := if m.key in t.desired then Some(t.desired[m.key]) else None;
            KeepsLastOwner(t.cat, rows, t.org, id, m, newRole) <==> t.Preserved(id)
  {
    if t.before[id].key == OrgKey(t.org) {
      OwnersUnmoved(t, ks, rows);
    }
  }

  /** A last owner keeps its row only when the plan names another role for it. */
  lemma PreservedDiffers(t: Task, id: RowId)
    requires t.Valid() && t.Preserved(id)
    ensures t.before[id].key in t.desired ==> t.before[id].role != Some(t.desired[t.before[id].key])
  {
    assert id in Owners(t.cat, t.before, t.org);
  }

  lemma UpdateStep(t: Task, ks: seq<Key>, k: Key, p: State)
    requires t.Valid() && Doable(t, ks + [k]) && Doable(t, ks) && k in t.snap && k !in ks && k in ks + [k]
    requires OldRowsAt(t, ks, p.rows) && NewRowsAt(t, ks, p.rows)
    ensures var q := Upsert(t, k, p); OldRowsAt(t, ks + [k], q.rows) && NewRowsAt(t, ks + [k], q.rows)
  {
    var q, id := Upsert(t, k, p), t.snap[k];
    if t.before[id].source == IdP {
      KeepIsPreserved(t, ks, p.rows, id);
      if t.Preserved(id) { PreservedDiffers(t, id); }
    }
    forall i | i in t.before ensures i in q.rows && q.rows[i] == OldRowAt(t, ks + [k], i) {
      if i != id {
        assert t.Synceable(i) ==> t.before[i].key != k;
      }
    }
  }

  // ---- What the removals leave --------------------------------------------------------

  ghost predicate IsStale(t: Task, id: RowId) {
    t.Synceable(id) && t.before[id].key !in t.desired
  }

  /** The rows of start once the stale rows have been visited. */
  ghost predicate RemovedAt(t: Task, stale: seq<RowId>, start: Rows, rows: Rows) {
    forall id :: (id in rows <==> id in start && (id in stale ==> t.Preserved(id))) &&
                 (id in rows ==> rows[id] == start[id])
  }

  ghost predicate AllStale(t: Task, stale: seq<RowId>) {
    forall id :: id in stale ==> IsStale(t, id)
  }

  lemma {:induction false} RemovesSpec(t: Task, ks: seq<Key>, stale: seq<RowId>, s: State)
    requires t.Valid() && Doable(t, ks) && AllStale(t, stale) && Distinct(stale)
    requires (forall k :: k in t.desired <==> k in ks) && OldRowsAt(t, ks, s.rows) && NewRowsAt(t, ks, s.rows)
    ensures RemovedAt(t, stale, s.rows, Removes(t, stale, s).rows)
  {
    hide IsOwner, OwnerEquivalent, RoleUsable, NewIds;
    if stale == [] {
    } else {
      var front, id := stale[..|stale| - 1], stale[|stale| - 1];
      assert stale == front + [id];
      RemovesSpec(t, ks, front, s);
      var p := Removes(t, front, s);
      assert IsStale(t, id) && id in s.rows && s.rows[id] == t.before[id] by {
        assert id in stale;
      }
      RemoveAsks(t, ks, front, s, p.rows, id);
    }
  }

  lemma RemoveAsks(t: Task, ks: seq<Key>, front: seq<RowId>, s: State, rows: Rows, id: RowId)
    requires t.Valid() && Doable(t, ks) && AllStale(t, front) && IsStale(t, id) && id !in front
    requires (forall k :: k in t.desired <==> k in ks) && OldRowsAt(t, ks, s.rows) && NewRowsAt(t, ks, s.rows)
    requires RemovedAt(t, front, s.rows, rows)
    ensures KeepsLastOwner(t.cat, rows, t.org, id, t.before[id], None) <==> t.Preserved(id)
  {
    KeepIsPreserved(t, ks, s.rows, id);
    if t.before[id].key == OrgKey(t.org) {
      assert Owners(t.cat, rows, t.org) == Owners(t.cat, s.rows, t.org) by {
        forall i | i in front ensures i in s.rows && !IsOwner(t.cat, s.rows[i], t.org) {
          assert IsStale(t, i) && s.rows[i] == t.before[i] && t.snap[t.before[i].key] == i &&
            t.snap[t.before[id].key] == id;
        }
      }
    }
  }

  // ---- The outcome --------------------------------------------------------------------

  /** The tables a finished sync leaves, row by row. */
  ghost predicate Final(t: Task, after: Rows)
    requires forall k :: k in t.desired ==> t.desired[k] in t.cat.roles
  {
    (forall id :: id in t.before ==>
      if Untouched(t, id) then id in after && after[id] == t.before[id]
      else if t.before[id].key in t.desired then
        id in after && after[id] == t.before[id].(role := Some(t.desired[t.before[id].key]))
      else id !in after) &&
    (forall k :: k in t.desired && k !in t.snap ==> t.newId(k) in after && after[t.newId(k)] == t.NewRow(k)) &&
    (forall id :: id in after && id !in t.before ==>
      after[id].key in t.desired && after[id].key !in t.snap && id == t.newId(after[id].key))
  }

  ghost predicate Visits(t: Task, ks: seq<Key>, stale: seq<RowId>) {
    Distinct(ks) && Distinct(stale) &&
    (forall k :: k in ks <==> k in t.desired) && (forall id :: id in stale <==> IsStale(t, id))
  }

  /** Whatever order the stale rows are taken in, the sync leaves the same tables. */
  lemma SyncFinal(t: Task, ks: seq<Key>, stale: seq<RowId>, s: State)
    requires t.Valid() && Visits(t, ks, stale) && Doable(t, ks) && s.rows == t.before
    ensures Final(t, Removes(t, stale, Upserts(t, ks, s)).rows)
  {
    UpsertsSpec(t, ks, s);
    RemovesSpec(t, ks, stale, Upserts(t, ks, s));
  }

  lemma FinalIsUnique(t: Task, a: Rows, b: Rows)
    requires t.Valid() && Final(t, a) && Final(t, b)
    ensures a == b
  {
    assert a.Keys == b.Keys by {
      forall id ensures id in a <==> id in b {
        if id in a && id !in t.before { assert id == t.newId(a[id].key); }
        if id in b && id !in t.before { assert id == t.newId(b[id].key); }
      }
    }
    forall id | id in a ensures a[id] == b[id] {
      if id !in t.before {
        assert id == t.newId(a[id].key) && id == t.newId(b[id].key);
      }
    }
  }

  lemma RemovalOrderIsIrrelevant(t: Task, ks: seq<Key>, q1: seq<RowId>, q2: seq<RowId>, s: State)
    requires t.Valid() && Visits(t, ks, q1) && Visits(t, ks, q2) && Doable(t, ks) && s.rows == t.before
    ensures Removes(t, q1, Upserts(t, ks, s)).rows == Removes(t, q2, Upserts(t, ks, s)).rows
  {
    SyncFinal(t, ks, q1, s);
    SyncFinal(t, ks, q2, s);
    FinalIsUnique(t, Removes(t, q1, Upserts(t, ks, s)).rows, Removes(t, q2, Upserts(t, ks, s)).rows);
  }

  // ---- Convergence, framing, idempotence ----------------------------------------------

  /** The (resource, role) pairs of the user's source='idp' rows in the org. */
  ghost function IdPRoles(rows: Rows, org: Id, user: Id): set<(Key, Option<Id>)> {
    set id | id in rows && Mine(rows[id], org, user) && rows[id].source == IdP :: (rows[id].key, rows[id].role)
  }

  /** The pairs the mappings ask for: the desired role of every resource no other source
      holds, except that a preserved last owner keeps the role it has. */
  ghost predicate Wanted(t: Task, k: Key, role: Option<Id>)
    requires t.Valid()
  {
    if k in t.snap && t.Preserved(t.snap[k]) then role == t.before[t.snap[k]].role
    else k in t.desired && role == Some(t.desired[k]) && (k in t.snap ==> t.before[t.snap[k]].source == IdP)
  }

  /** Convergence: afterwards the idp rows say exactly what the mappings say. */
  lemma SyncConverges(t: Task, after: Rows, k: Key, role: Option<Id>)
    requires t.Valid() && Final(t, after)
    ensures (k, role) in IdPRoles(after, t.org, t.user) <==> Wanted(t, k, role)
  {
    if (k, role) in IdPRoles(after, t.org, t.user) {
      var id :| id in after && Mine(after[id], t.org, t.user) && after[id].source == IdP && after[id].key == k &&
        after[id].role == role;
      if id in t.before {
        assert t.snap[k] == id;
      }
    }
    if Wanted(t, k, role) {
      var id := if k in t.snap then t.snap[k] else t.newId(k);
      assert id in after && Mine(after[id], t.org, t.user) && after[id].source == IdP && after[id].key == k &&
        after[id].role == role;
    }
  }

  /** Framing: rows of another user, another organisation or another source stay as they
      were, every surviving row keeps its resource, and every new row is an idp row of the
      user in the org. */
  lemma SyncFrames(t: Task, after: Rows, id: RowId)
    requires t.Valid() && Final(t, after)
    ensures id in t.before && !(Mine(t.before[id], t.org, t.user) && t.before[id].source == IdP) ==>
      id in after && after[id] == t.before[id]
    ensures id in t.before && id in after ==> after[id] == t.before[id].(role := after[id].role)
    ensures id !in t.before && id in after ==> Mine(after[id], t.org, t.user) && after[id].source == IdP
  {
    if id in after && id !in t.before { assert after[t.newId(after[id].key)] == t.NewRow(after[id].key); }
  }

  /** At most one membership per user and resource, before and after. */
  lemma SyncKeepsRowsUnique(t: Task, after: Rows)
    requires t.Valid() && Final(t, after) && UniqueRows(t.before)
    ensures UniqueRows(after)
  {
    forall i, j | i in after && j in after && SameSlot(after[i], after[j]) ensures i == j {
      SyncFrames(t, after, i);
      SyncFrames(t, after, j);
      if i in t.before && j in t.before {
        assert SameSlot(t.before[i], t.before[j]);
      }
    }
  }

  /** The owner rows of the org after a sync: at most the user's own org-level row differs,
      and never for the worse when it was the only one. */
  lemma SyncKeepsOwners(t: Task, after: Rows, org: Id)
    requires t.Valid() && Final(t, after)
    requires HasOwner(t.cat, t.before, org)
    ensures HasOwner(t.cat, after, org)
  {
    if org != t.org {
      var id :| id in t.before && IsOwner(t.cat, t.before[id], org);
      assert Untouched(t, id) && after[id] == t.before[id];
    } else {
      HasOwnerIsOwners(t.cat, t.before, org);
      var id :| id in Owners(t.cat, t.before, org);
      if Owners(t.cat, t.before, org) == {id} {
        OnlyOwnerSurvives(t, after, id);
      } else {
        var other :| other in Owners(t.cat, t.before, org) && other != id;
        var mine := if Mine(t.before[id], org, t.user) then other else id;
        assert !t.Synceable(mine);
        assert mine in after && after[mine] == t.before[mine];
      }
    }
  }

  lemma OnlyOwnerSurvives(t: Task, after: Rows, id: RowId)
    requires t.Valid() && Final(t, after) && Owners(t.cat, t.before, t.org) == {id}
    ensures id in after && IsOwner(t.cat, after[id], t.org)
  {
    assert id in Owners(t.cat, t.before, t.org);
  }

  /** Syncing a second time with the same groups and mappings changes nothing, also when a
      last owner was kept the first time. */
  lemma SyncTwice(t: Task, u: Task, again: Rows)
    requires t.Valid() && UniqueRows(t.before)
    requires Final(t, u.before)
    requires u.Valid() && u.cat == t.cat && u.org == t.org && u.user == t.user && u.desired == t.desired
    requires Final(u, again)
    ensures again == u.before
  {
    forall id | id in u.before ensures Settled(u, id) {
      RowSettled(t, u, id);
    }
    forall k | k in u.desired ensures k in u.snap {
      KeyHeld(t, u, k);
    }
    FinalIsUnique(u, again, u.before);
  }

  /** A row the next sync has nothing to do for. */
  ghost predicate Settled(u: Task, id: RowId)
    requires id in u.before
  {
    u.Synceable(id) && !u.Preserved(id) ==>
      u.before[id].key in u.desired && u.before[id].role == Some(u.desired[u.before[id].key])
  }

  lemma RowSettled(t: Task, u: Task, id: RowId)
    requires t.Valid() && Final(t, u.before) && id in u.before
    requires u.Valid() && u.cat == t.cat && u.org == t.org && u.user == t.user && u.desired == t.desired
    ensures Settled(u, id)
  {
    if id !in t.before {
      assert u.before[t.newId(u.before[id].key)] == t.NewRow(u.before[id].key);
    } else if t.Preserved(id) {
      PreservedAgain(t, u, id);
    }
  }

  lemma KeyHeld(t: Task, u: Task, k: Key)
    requires t.Valid() && Final(t, u.before) && k in t.desired
    requires u.Valid() && u.org == t.org && u.user == t.user
    ensures k in u.snap
  {
    var id := if k in t.snap then t.snap[k] else t.newId(k);
    assert id in u.before && Mine(u.before[id], u.org, u.user) && u.before[id].key == k;
  }

  /** Where a row of the outcome comes from. */
  lemma RowOrigin(t: Task, after: Rows, id: RowId)
    requires t.Valid() && Final(t, after) && id in after
    ensures id !in t.before ==> after[id].key !in t.snap
    ensures id in t.before && after[id] != t.before[id] ==>
      after[id].key == t.before[id].key && t.before[id].key in t.snap && t.snap[t.before[id].key] == id
    ensures id in t.before && after[id] == t.before[id] && IsOwner(t.cat, after[id], t.org) ==>
      id in Owners(t.cat, t.before, t.org)
  {
  }

  lemma PreservedAgain(t: Task, u: Task, id: RowId)
    requires t.Valid() && t.Preserved(id) && Final(t, u.before)
    requires u.Valid() && u.cat == t.cat && u.org == t.org && u.user == t.user && u.desired == t.desired
    ensures u.Preserved(id)
  {
    assert id in Owners(t.cat, t.before, t.org);
    assert t.snap[OrgKey(t.org)] == id;
    forall o | o in Owners(u.cat, u.before, u.org) ensures o == id {
      RowOrigin(t, u.before, o);
    }
    assert id in Owners(u.cat, u.before, u.org);
    assert Owners(u.cat, u.before, u.org) == {id};
  }

  // ---- The report and the audit trail -------------------------------------------------

  ghost predicate WasUpdated(t: Task, ks: seq<Key>, sm: Synced)
    requires Doable(t, ks)
  {
    sm.key in ks && sm.key in t.snap && sm.role == t.desired[sm.key] && t.Synceable(t.snap[sm.key]) &&
    !t.Preserved(t.snap[sm.key]) && t.before[t.snap[sm.key]].role != Some(sm.role)
  }

  ghost predicate WasKept(t: Task, ks: seq<Key>, sm: Synced)
    requires Doable(t, ks)
  {
    sm.key in ks && sm.key in t.snap && sm.role == t.desired[sm.key] &&
    (t.before[t.snap[sm.key]].source != IdP || t.Preserved(t.snap[sm.key]))
  }

  ghost predicate UpsertReport(t: Task, ks: seq<Key>, res: SyncResult)
    requires Doable(t, ks)
  {
    (forall sm :: sm in res.added <==> sm.key in ks && sm.key !in t.snap && sm.role == t.desired[sm.key]) &&
    (forall sm :: sm in res.updated <==> WasUpdated(t, ks, sm)) &&
    (forall sm :: sm in res.kept <==> WasKept(t, ks, sm)) &&
    res.removed == [] && Distinct(res.added) && Distinct(res.updated) && Distinct(res.kept)
  }

  lemma AppendDistinct<T>(q: seq<T>, x: T)
    requires Distinct(q) && x !in q
    ensures Distinct(q + [x])
  {
    assert (q + [x])[..|q|] == q;
  }

  lemma {:induction false} UpsertsReport(t: Task, ks: seq<Key>, s: State)
    requires t.Valid() && Doable(t, ks) && Distinct(ks) && s.rows == t.before && s.res == NOTHING
    ensures UpsertReport(t, ks, Upserts(t, ks, s).res)
  {
    if ks == [] {
    } else {
      var front, k := ks[..|ks| - 1], ks[|ks| - 1];
      assert ks == front + [k];
      UpsertsReport(t, front, s);
      UpsertsSpec(t, front, s);
      var p := Upserts(t, front, s);
      if k in t.snap && t.before[t.snap[k]].source == IdP {
        KeepIsPreserved(t, front, p.rows, t.snap[k]);
        if t.Preserved(t.snap[k]) { PreservedDiffers(t, t.snap[k]); }
      }
      UpsertReportStep(t, front, k, p);
    }
  }

  lemma UpsertReportStep(t: Task, ks: seq<Key>, k: Key, p: State)
    requires Doable(t, ks) && Doable(t, ks + [k]) && k !in ks && k in ks + [k] && UpsertReport(t, ks, p.res)
    requires k in t.snap && t.before[t.snap[k]].source == IdP ==>
      t.Synceable(t.snap[k]) &&
      (KeepsLastOwner(t.cat, p.rows, t.org, t.snap[k], t.before[t.snap[k]], Some(t.desired[k])) <==>
        t.Preserved(t.snap[k])) &&
      (t.Preserved(t.snap[k]) ==> t.before[t.snap[k]].role != Some(t.desired[k]))
    ensures UpsertReport(t, ks + [k], Upsert(t, k, p).res)
  {
    var sm, res := Synced(k, t.desired[k]), Upsert(t, k, p).res;
    AppendDistinct(p.res.added, sm);
    AppendDistinct(p.res.updated, sm);
    AppendDistinct(p.res.kept, sm);
    assert res.added == if k !in t.snap then p.res.added + [sm] else p.res.added;
    assert res.updated == if WasUpdated(t, ks + [k], sm) then p.res.updated + [sm] else p.res.updated;
    assert res.kept == if WasKept(t, ks + [k], sm) then p.res.kept + [sm] else p.res.kept;
    forall x: Synced
      ensures x in res.added <==> x.key in ks + [k] && x.key !in t.snap && x.role == t.desired[x.key]
      ensures x in res.updated <==> WasUpdated(t, ks + [k], x)
      ensures x in res.kept <==> WasKept(t, ks + [k], x)
    {
      assert x.key in ks + [k] <==> x.key in ks || x.key == k;
      assert x.key == k && x.role == t.desired[k] <==> x == sm;
    }
  }

  ghost predicate WasRemoved(t: Task, stale: seq<RowId>, sm: Synced, kept: bool)
    requires Doable(t, [])
  {
    sm.key in t.snap && t.snap[sm.key] in stale && sm.role == RoleText(t.before[t.snap[sm.key]].role) &&
    (kept <==> t.Preserved(t.snap[sm.key]))
  }

  ghost predicate RemoveReport(t: Task, stale: seq<RowId>, start: SyncResult, res: SyncResult)
    requires Doable(t, [])
  {
    res.added == start.added && res.updated == start.updated &&
    (forall sm :: sm in res.removed <==> WasRemoved(t, stale, sm, false)) &&
    (forall sm :: sm in res.kept <==> sm in start.kept || WasRemoved(t, stale, sm, true)) &&
    Distinct(res.removed) && Distinct(res.kept)
  }

  lemma {:induction false} RemovesReport(t: Task, ks: seq<Key>, stale: seq<RowId>, s: State)
    requires t.Valid() && Doable(t, ks) && Doable(t, []) && AllStale(t, stale) && Distinct(stale)
    requires (forall k :: k in t.desired <==> k in ks) && OldRowsAt(t, ks, s.rows) && NewRowsAt(t, ks, s.rows)
    requires UpsertReport(t, ks, s.res)
    ensures RemoveReport(t, stale, s.res, Removes(t, stale, s).res)
  {
    if stale == [] {
    } else {
      var front, id := stale[..|stale| - 1], stale[|stale| - 1];
      assert stale == front + [id];
      RemovesReport(t, ks, front, s);
      RemovesSpec(t, ks, front, s);
      var p := Removes(t, front, s);
      assert IsStale(t, id) by { assert id in stale; }
      RemoveAsks(t, ks, front, s, p.rows, id);
      assert forall x :: x in s.res.kept ==> x.key in t.desired;
      RemoveReportStep(t, front, id, s.res, p);
    }
  }

  function StaleEntry(t: Task, id: RowId): Synced
    requires id in t.before
  {
    Synced(t.before[id].key, RoleText(t.before[id].role))
  }

  lemma WasRemovedSnoc(t: Task, front: seq<RowId>, id: RowId, x: Synced, kept: bool)
    requires t.Valid() && Doable(t, []) && IsStale(t, id) && id !in front
    ensures WasRemoved(t, front + [id], x, kept) <==>
            WasRemoved(t, front, x, kept) || (x == StaleEntry(t, id) && (kept <==> t.Preserved(id)))
    ensures !WasRemoved(t, front, StaleEntry(t, id), kept)
  {
    hide NewIds, RoleUsable, IsOwner, OwnerEquivalent, RoleText;
    assert t.snap[t.before[id].key] == id;
  }

  lemma RemoveReportStep(t: Task, front: seq<RowId>, id: RowId, start: SyncResult, p: State)
    requires t.Valid() && Doable(t, []) && AllStale(t, front) && IsStale(t, id) && id !in front
    requires RemoveReport(t, front, start, p.res)
    requires forall x :: x in start.kept ==> x.key in t.desired
    requires KeepsLastOwner(t.cat, p.rows, t.org, id, t.before[id], None) <==> t.Preserved(id)
    ensures RemoveReport(t, front + [id], start, Remove(t, id, p).res)
  {
    hide WasRemoved, SnapOf, NewIds, RoleUsable, KeepsLastOwner, Owners, IsOwner, RoleText, Distinct;
    var sm, res := StaleEntry(t, id), Remove(t, id, p).res;
    forall x: Synced, kept: bool ensures WasRemoved(t, front + [id], x, kept) <==>
      WasRemoved(t, front, x, kept) || (x == sm && (kept <==> t.Preserved(id)))
    {
      WasRemovedSnoc(t, front, id, x, kept);
    }
    WasRemovedSnoc(t, front, id, sm, true);
    WasRemovedSnoc(t, front, id, sm, false);
    if t.Preserved(id) { AppendDistinct(p.res.kept, sm); } else { AppendDistinct(p.res.removed, sm); }
  }

  /** The audit rows a sync owes for a kept owner: one if its row was visited. */
  ghost function OwnerAudit(t: Task, visited: bool): seq<AuditRow> {
    if visited && OrgKey(t.org) in t.snap && t.Preserved(t.snap[OrgKey(t.org)])
    then [OwnerPreserved(t.org, t.user, t.snap[OrgKey(t.org)])] else []
  }

  lemma {:induction false} UpsertsAudit(t: Task, ks: seq<Key>, s: State)
    requires t.Valid() && Doable(t, ks) && Distinct(ks) && s.rows == t.before
    ensures Upserts(t, ks, s).audit == s.audit + OwnerAudit(t, OrgKey(t.org) in ks)
  {
    hide IsOwner, OwnerEquivalent, RoleUsable, Owners;
    if ks == [] {
    } else {
      var front, k := ks[..|ks| - 1], ks[|ks| - 1];
      assert ks == front + [k];
      UpsertsAudit(t, front, s);
      UpsertsSpec(t, front, s);
      var p := Upserts(t, front, s);
      if k in t.snap && t.before[t.snap[k]].source == IdP {
        KeepIsPreserved(t, front, p.rows, t.snap[k]);
        if t.Preserved(t.snap[k]) { PreservedDiffers(t, t.snap[k]); }
      }
    }
  }

  lemma {:induction false} RemovesAudit(t: Task, ks: seq<Key>, stale: seq<RowId>, s: State)
    requires t.Valid() && Doable(t, ks) && AllStale(t, stale) && Distinct(stale)
    requires (forall k :: k in t.desired <==> k in ks) && OldRowsAt(t, ks, s.rows) && NewRowsAt(t, ks, s.rows)
    ensures Removes(t, stale, s).audit ==
            s.audit + OwnerAudit(t, OrgKey(t.org) in t.snap && t.snap[OrgKey(t.org)] in stale)
  {
    hide IsOwner, OwnerEquivalent, RoleUsable, NewIds;
    if stale == [] {
    } else {
      var front, id := stale[..|stale| - 1], stale[|stale| - 1];
      assert stale == front + [id];
      RemovesAudit(t, ks, front, s);
      RemovesSpec(t, ks, front, s);
      assert IsStale(t, id) by { assert id in stale; }
      RemoveAsks(t, ks, front, s, Removes(t, front, s).rows, id);
    }
  }

  /** A sync audits a preserved owner once, whether it would have been demoted or removed. */
  lemma SyncAudits(t: Task, ks: seq<Key>, stale: seq<RowId>, s: State)
    requires t.Valid() && Visits(t, ks, stale) && Doable(t, ks) && s.rows == t.before
    ensures Removes(t, stale, Upserts(t, ks, s)).audit == s.audit + OwnerAudit(t, true)
  {
    UpsertsAudit(t, ks, s);
    UpsertsSpec(t, ks, s);
    RemovesAudit(t, ks, stale, Upserts(t, ks, s));
  }

  function Entry(m: Membership): Synced { Synced(m.key, RoleText(m.role)) }

  lemma SyncReport(t: Task, ks: seq<Key>, stale: seq<RowId>, s: State)
    requires t.Valid() && Visits(t, ks, stale) && Doable(t, ks) && Doable(t, []) && s.rows == t.before &&
             s.res == NOTHING
    ensures UpsertReport(t, ks, Upserts(t, ks, s).res)
    ensures RemoveReport(t, stale, Upserts(t, ks, s).res, Removes(t, stale, Upserts(t, ks, s)).res)
  {
    UpsertsReport(t, ks, s);
    UpsertsSpec(t, ks, s);
    RemovesReport(t, ks, stale, Upserts(t, ks, s));
  }

  ghost predicate IsNewEntry(t: Task, after: Rows, sm: Synced) {
    exists id :: id in after && id !in t.before && sm == Entry(after[id])
  }

  ghost predicate IsChangedEntry(t: Task, after: Rows, sm: Synced) {
    exists id :: id in after && id in t.before && after[id] != t.before[id] && sm == Entry(after[id])
  }

  ghost predicate IsGoneEntry(t: Task, after: Rows, sm: Synced) {
    exists id :: id in t.before && id !in after && sm == Entry(t.before[id])
  }

  lemma AddedIsNew(t: Task, ks: seq<Key>, after: Rows, res: SyncResult, sm: Synced)
    requires t.Valid() && Doable(t, ks) && Final(t, after) && UpsertReport(t, ks, res)
    requires forall k :: k in ks <==> k in t.desired
    ensures sm in res.added <==> IsNewEntry(t, after, sm)
  {
    if sm in res.added {
      assert t.newId(sm.key) in after && after[t.newId(sm.key)] == t.NewRow(sm.key);
      assert Entry(after[t.newId(sm.key)]) == sm;
    }
    if IsNewEntry(t, after, sm) {
      var id :| id in after && id !in t.before && sm == Entry(after[id]);
      assert after[t.newId(after[id].key)] == t.NewRow(after[id].key);
    }
  }

  lemma UpdatedIsChanged(t: Task, ks: seq<Key>, after: Rows, res: SyncResult, sm: Synced)
    requires t.Valid() && Doable(t, ks) && Final(t, after) && UpsertReport(t, ks, res)
    requires forall k :: k in ks <==> k in t.desired
    ensures sm in res.updated <==> IsChangedEntry(t, after, sm)
  {
    if WasUpdated(t, ks, sm) {
      var id := t.snap[sm.key];
      assert id in after && after[id] != t.before[id] && sm == Entry(after[id]);
    }
    if IsChangedEntry(t, after, sm) {
      var id :| id in after && id in t.before && after[id] != t.before[id] && sm == Entry(after[id]);
      assert !Untouched(t, id) && t.snap[sm.key] == id;
      assert WasUpdated(t, ks, sm);
    }
  }

  lemma RemovedIsGone(t: Task, stale: seq<RowId>, after: Rows, start: SyncResult, res: SyncResult, sm: Synced)
    requires t.Valid() && Doable(t, []) && Final(t, after) && RemoveReport(t, stale, start, res)
    requires forall id :: id in stale <==> IsStale(t, id)
    ensures sm in res.removed <==> IsGoneEntry(t, after, sm)
  {
    if WasRemoved(t, stale, sm, false) {
      var id := t.snap[sm.key];
      assert IsStale(t, id) && id !in after && sm == Entry(t.before[id]);
    }
    if IsGoneEntry(t, after, sm) {
      var id :| id in t.before && id !in after && sm == Entry(t.before[id]);
      assert !Untouched(t, id) && t.snap[sm.key] == id && IsStale(t, id);
    }
  }

  /** What Kept should list: desired memberships of a resource another source holds, and the
      change that was not made to a preserved last owner. */
  ghost predicate HeldBack(t: Task, sm: Synced)
    requires t.Valid()
  {
    sm.key in t.snap &&
    if t.Preserved(t.snap[sm.key]) then
      sm.role == if sm.key in t.desired then t.desired[sm.key] else RoleText(t.before[t.snap[sm.key]].role)
    else sm.key in t.desired && sm.role == t.desired[sm.key] && t.before[t.snap[sm.key]].source != IdP
  }

  lemma KeptIsHeldBack(t: Task, ks: seq<Key>, stale: seq<RowId>, sm: Synced)
    requires t.Valid() && Doable(t, ks) && Doable(t, []) && Visits(t, ks, stale)
    ensures WasKept(t, ks, sm) || WasRemoved(t, stale, sm, true) <==> HeldBack(t, sm)
  {
    if HeldBack(t, sm) && sm.key !in t.desired {
      assert IsStale(t, t.snap[sm.key]);
    }
  }

  /** Added, Updated and Removed are exactly the difference between the tables before and
      after, Kept is what was wanted and left alone, and nothing is listed twice. */
  lemma SyncReportsDifference(t: Task, ks: seq<Key>, stale: seq<RowId>, s: State, sm: Synced)
    requires t.Valid() && Visits(t, ks, stale) && Doable(t, ks) && s.rows == t.before && s.res == NOTHING
    ensures var f := Removes(t, stale, Upserts(t, ks, s));
      (sm in f.res.added <==> IsNewEntry(t, f.rows, sm)) &&
      (sm in f.res.updated <==> IsChangedEntry(t, f.rows, sm)) &&
      (sm in f.res.removed <==> IsGoneEntry(t, f.rows, sm)) &&
      (sm in f.res.kept <==> HeldBack(t, sm)) &&
      Distinct(f.res.added) && Distinct(f.res.updated) && Distinct(f.res.removed) && Distinct(f.res.kept)
  {
    var p := Upserts(t, ks, s);
    var f := Removes(t, stale, p);
    SyncFinal(t, ks, stale, s);
    SyncReport(t, ks, stale, s);
    AddedIsNew(t, ks, f.rows, p.res, sm);
    UpdatedIsChanged(t, ks, f.rows, p.res, sm);
    RemovedIsGone(t, stale, f.rows, p.res, f.res, sm);
    KeptIsHeldBack(t, ks, stale, sm);
  }

  /** Changed() is true exactly when a membership differs afterwards. */
  lemma ChangedIffTableDiffers(t: Task, ks: seq<Key>, stale: seq<RowId>, s: State)
    requires t.Valid() && Visits(t, ks, stale) && Doable(t, ks) && s.rows == t.before && s.res == NOTHING
    ensures var f := Removes(t, stale, Upserts(t, ks, s)); f.res.Changed() <==> f.rows != t.before
  {
    var f := Removes(t, stale, Upserts(t, ks, s));
    if f.res.added != [] { SyncReportsDifference(t, ks, stale, s, f.res.added[0]); }
    if f.res.updated != [] { SyncReportsDifference(t, ks, stale, s, f.res.updated[0]); }
    if f.res.removed != [] { SyncReportsDifference(t, ks, stale, s, f.res.removed[0]); }
    if f.rows != t.before {
      if id :| id in f.rows && (id !in t.before || f.rows[id] != t.before[id]) {
        SyncReportsDifference(t, ks, stale, s, Entry(f.rows[id]));
      } else {
        assert f.rows.Keys != t.before.Keys;
        var id :| id in t.before && id !in f.rows;
        SyncReportsDifference(t, ks, stale, s, Entry(t.before[id]));
      }
    }
  }

  // ---- The imperative form -------------------------------------------------------------

  ghost function HeldKeys(rows: Rows, org: Id, user: Id): set<Key> {
    set id | id in rows && Mine(rows[id], org, user) :: rows[id].key
  }

  ghost function SnapFor(rows: Rows, org: Id, user: Id): map<Key, RowId> {
    map k | k in HeldKeys(rows, org, user) :: HolderOf(rows, org, user, k)
  }

  ghost function HolderOf(rows: Rows, org: Id, user: Id, k: Key): (id: RowId)
    requires k in HeldKeys(rows, org, user)
    ensures id in rows && Mine(rows[id], org, user) && rows[id].key == k
  {
    var id :| id in rows && Mine(rows[id], org, user) && rows[id].key == k;
    id
  }

  lemma SnapForIsSnap(rows: Rows, org: Id, user: Id)
    requires UniqueRows(rows)
    ensures SnapOf(rows, org, user, SnapFor(rows, org, user))
  {
    var snap := SnapFor(rows, org, user);
    forall id | id in rows && Mine(rows[id], org, user)
      ensures rows[id].key in snap && snap[rows[id].key] == id
    {
      assert SameSlot(rows[snap[rows[id].key]], rows[id]);
    }
  }

  /** The job one call of ReconcileIdPMemberships has to do. */
  ghost function TaskFor(cat: Catalog, table: seq<Mapping>, rows: Rows, inp: SyncInput, newId: Key -> RowId): Task {
    var plan := PlanFor(cat, inp.org, GroupSet(inp.groups), ForProvider(table, inp.org, inp.provider));
    Task(cat, inp.org, inp.user, rows, SnapFor(rows, inp.org, inp.user), plan.desired, newId)
  }

  ghost function StaleIds(t: Task): seq<RowId> {
    SortedIds(set id | id in t.before && IsStale(t, id))
  }

  lemma AscendingIsDistinct(q: seq<RowId>)
    requires Ascending(q)
    ensures Distinct(q)
  {
    if q != [] { AscendingIsDistinct(q[..|q| - 1]); }
  }

  ghost function OrderFor(cat: Catalog, table: seq<Mapping>, inp: SyncInput): seq<Key> {
    PlanFor(cat, inp.org, GroupSet(inp.groups), ForProvider(table, inp.org, inp.provider)).order
  }

  lemma TaskForIsValid(cat: Catalog, table: seq<Mapping>, rows: Rows, inp: SyncInput, newId: Key -> RowId)
    requires UniqueRows(rows) && NewIds(newId, rows)
    ensures var t, ks := TaskFor(cat, table, rows, inp, newId), OrderFor(cat, table, inp);
            t.Valid() && Visits(t, ks, StaleIds(t)) && Doable(t, ks)
  {
    var t := TaskFor(cat, table, rows, inp, newId);
    SnapForIsSnap(rows, inp.org, inp.user);
    AscendingIsDistinct(StaleIds(t));
  }

  /** The tables, audit trail and report one reconciliation ends with. */
  ghost function SyncOutcome(cat: Catalog, table: seq<Mapping>, rows: Rows, audit: seq<AuditRow>, inp: SyncInput,
    newId: Key -> RowId): State
    requires UniqueRows(rows) && NewIds(newId, rows)
  {
    if Skips(inp) then State(rows, audit, NOTHING)
    else
      var t, ks := TaskFor(cat, table, rows, inp, newId), OrderFor(cat, table, inp);
      TaskForIsValid(cat, table, rows, inp, newId);
      var f := Removes(t, StaleIds(t), Upserts(t, ks, State(rows, audit, NOTHING)));
      f.(audit := f.audit + SyncedAudit(inp, f.res))
  }

  // ---- What a reconciliation does, from the tables and the assertion alone ----------------

  /** Does the mapping speak of this sign-in: its organisation, its provider or every provider, one
      of the asserted groups, and a role and resource that are still there? */
  ghost predicate Fits(cat: Catalog, inp: SyncInput, m: Mapping) {
    m.org == inp.org && (m.provider == None || m.provider == Some(inp.provider)) &&
    (exists g :: g in inp.groups && TrimSpace(g) != "" && TrimSpace(g) == m.group) &&
    RoleUsable(cat, inp.org, m.role) && ResourceUsable(cat, inp.org, m.key)
  }

  /** table[i] fits and no older mapping of its resource does. */
  ghost predicate OldestFit(cat: Catalog, table: seq<Mapping>, inp: SyncInput, i: nat) {
    i < |table| && Fits(cat, inp, table[i]) && forall j :: 0 <= j < i && table[j].key == table[i].key ==>
      !Fits(cat, inp, table[j])
  }

  ghost predicate Chosen(cat: Catalog, table: seq<Mapping>, inp: SyncInput, k: Key, role: Id) {
    exists i :: 0 <= i < |table| && OldestFit(cat, table, inp, i) && table[i].key == k && table[i].role == role
  }

  ghost predicate SomeChosen(cat: Catalog, table: seq<Mapping>, inp: SyncInput, k: Key) {
    exists i :: 0 <= i < |table| && Fits(cat, inp, table[i]) && table[i].key == k
  }

  /** With one more, younger, mapping the choice changes only where there was none. */
  lemma ChosenSnoc(cat: Catalog, front: seq<Mapping>, last: Mapping, inp: SyncInput, k: Key, role: Id)
    ensures Chosen(cat, front + [last], inp, k, role) <==>
      Chosen(cat, front, inp, k, role) ||
      (!SomeChosen(cat, front, inp, k) && Fits(cat, inp, last) && last.key == k && last.role == role)
  {
    hide Fits;
    var table := front + [last];
    assert forall i :: 0 <= i < |front| ==> table[i] == front[i];
    forall i | 0 <= i < |front| ensures OldestFit(cat, table, inp, i) <==> OldestFit(cat, front, inp, i) {}
    if Chosen(cat, table, inp, k, role) {
      var i :| 0 <= i < |table| && OldestFit(cat, table, inp, i) && table[i].key == k && table[i].role == role;
      if i == |front| {
        forall j | 0 <= j < |front| && front[j].key == k ensures !Fits(cat, inp, front[j]) {
          assert table[j] == front[j];
        }
      }
    }
    if Chosen(cat, front, inp, k, role) {
      var i :| 0 <= i < |front| && OldestFit(cat, front, inp, i) && front[i].key == k && front[i].role == role;
      assert OldestFit(cat, table, inp, i) && table[i].key == k && table[i].role == role;
    }
    if !SomeChosen(cat, front, inp, k) && Fits(cat, inp, last) && last.key == k && last.role == role {
      assert table[|front|] == last && OldestFit(cat, table, inp, |front|);
    }
  }

  lemma FitsIsApplies(cat: Catalog, inp: SyncInput, m: Mapping)
    ensures Fits(cat, inp, m) <==>
      m.org == inp.org && (m.provider.None? || m.provider.value == inp.provider) &&
      Applies(cat, inp.org, GroupSet(inp.groups), m)
  {
  }

  /** The plan, read off the table. */
  lemma {:induction false} DesiredIsChosen(cat: Catalog, table: seq<Mapping>, inp: SyncInput, k: Key)
    ensures var d := PlanFor(cat, inp.org, GroupSet(inp.groups), ForProvider(table, inp.org, inp.provider)).desired;
            (k in d <==> SomeChosen(cat, table, inp, k)) &&
            forall role :: Chosen(cat, table, inp, k, role) <==> k in d && d[k] == role
  {
    hide Fits, Applies;
    if table == [] {
    } else {
      var front, last := table[..|table| - 1], table[|table| - 1];
      assert table == front + [last];
      DesiredIsChosen(cat, front, inp, k);
      FitsIsApplies(cat, inp, last);
      forall role: Id ensures Chosen(cat, table, inp, k, role) <==>
        Chosen(cat, front, inp, k, role) ||
        (!SomeChosen(cat, front, inp, k) && Fits(cat, inp, last) && last.key == k && last.role == role)
      {
        ChosenSnoc(cat, front, last, inp, k, role);
      }
      SomeChosenSnoc(cat, front, last, inp, k);
      PlanSnoc(cat, inp, front, last, k);
    }
  }

  lemma SomeChosenSnoc(cat: Catalog, front: seq<Mapping>, last: Mapping, inp: SyncInput, k: Key)
    ensures SomeChosen(cat, front + [last], inp, k) <==>
      SomeChosen(cat, front, inp, k) || (Fits(cat, inp, last) && last.key == k)
  {
    hide Fits;
    var table := front + [last];
    assert table[|front|] == last && forall i :: 0 <= i < |front| ==> table[i] == front[i];
  }

  lemma PlanSnoc(cat: Catalog, inp: SyncInput, front: seq<Mapping>, last: Mapping, k: Key)
    ensures var groups := GroupSet(inp.groups);
            var d := PlanFor(cat, inp.org, groups, ForProvider(front, inp.org, inp.provider)).desired;
            var e := PlanFor(cat, inp.org, groups, ForProvider(front + [last], inp.org, inp.provider)).desired;
            (k in e <==> k in d || (Fits(cat, inp, last) && last.key == k)) &&
            (k in e ==> e[k] == if k in d then d[k] else last.role)
  {
    hide GroupSet, Applies, Fits;
    FitsIsApplies(cat, inp, last);
    assert (front + [last])[..|front|] == front;
    var ms := ForProvider(front, inp.org, inp.provider);
    assert (ms + [last])[..|ms|] == ms;
    assert ms + [] == ms;
  }

  /** Does the user hold the resource by another source? */
  ghost predicate HeldElsewhere(rows: Rows, inp: SyncInput, k: Key) {
    exists id :: id in rows && Mine(rows[id], inp.org, inp.user) && rows[id].key == k && rows[id].source != IdP
  }

  /** Is the user's idp row for k the organisation's only owner row, and does no chosen mapping give
      it an owner role? */
  ghost predicate KeepsOwnerAt(cat: Catalog, table: seq<Mapping>, rows: Rows, inp: SyncInput, k: Key) {
    k == OrgKey(inp.org) &&
    (exists id :: id in rows && Mine(rows[id], inp.org, inp.user) && rows[id].key == k && rows[id].source == IdP &&
       Owners(cat, rows, inp.org) == {id}) &&
    !exists role :: Chosen(cat, table, inp, k, role) && role in cat.roles && OwnerEquivalent(role, cat.roles[role])
  }

  /** The whole reconciliation, stated on the tables: afterwards (k, role) is an idp membership of the
      user exactly if no other source holds k, and the oldest mapping that fits gives k that role; the
      one exception is an only owner's row, which keeps the role it had. */
  lemma OutcomeGrantsExactly(cat: Catalog, table: seq<Mapping>, rows: Rows, audit: seq<AuditRow>, inp: SyncInput,
    newId: Key -> RowId, k: Key, role: Option<Id>)
    requires UniqueRows(rows) && NewIds(newId, rows) && inp.org != "" && inp.org != PLATFORM_ORG && inp.user != ""
    ensures (k, role) in IdPRoles(SyncOutcome(cat, table, rows, audit, inp, newId).rows, inp.org, inp.user) <==>
      if HeldElsewhere(rows, inp, k) then false
      else if KeepsOwnerAt(cat, table, rows, inp, k) then (k, role) in IdPRoles(rows, inp.org, inp.user)
      else role.Some? && Chosen(cat, table, inp, k, role.value)
  {
    hide Upserts, Removes, Final, Fits, Chosen, PlanFor, GroupSet, ForProvider, IdPRoles;
    var t, ks := TaskFor(cat, table, rows, inp, newId), OrderFor(cat, table, inp);
    TaskForIsValid(cat, table, rows, inp, newId);
    var s0 := State(rows, audit, NOTHING);
    SyncFinal(t, ks, StaleIds(t), s0);
    var after := Removes(t, StaleIds(t), Upserts(t, ks, s0)).rows;
    SyncConverges(t, after, k, role);
    DesiredIsChosen(cat, table, inp, k);
    WantedFromTable(cat, table, rows, inp, newId, k, role);
  }

  lemma WantedFromTable(cat: Catalog, table: seq<Mapping>, rows: Rows, inp: SyncInput, newId: Key -> RowId, k: Key,
    role: Option<Id>)
    requires UniqueRows(rows) && TaskFor(cat, table, rows, inp, newId).Valid()
    ensures Wanted(TaskFor(cat, table, rows, inp, newId), k, role) <==>
      if HeldElsewhere(rows, inp, k) then false
      else if KeepsOwnerAt(cat, table, rows, inp, k) then (k, role) in IdPRoles(rows, inp.org, inp.user)
      else role.Some? && Chosen(cat, table, inp, k, role.value)
  {
    hide UniqueRows, NewIds, Fits, Chosen, PlanFor, GroupSet, ForProvider, SnapFor, IsOwner, OwnerEquivalent,
      RoleUsable;
    var t := TaskFor(cat, table, rows, inp, newId);
    DesiredIsChosen(cat, table, inp, k);
    forall id | id in rows && Mine(rows[id], inp.org, inp.user) && rows[id].key == k
      ensures k in t.snap && t.snap[k] == id {}
    if k in t.snap {
      var id := t.snap[k];
      assert id in rows && Mine(rows[id], inp.org, inp.user) && rows[id].key == k;
      assert KeepsOwnerAt(cat, table, rows, inp, k) <==> t.Preserved(id) by {
        if k == OrgKey(inp.org) && k in t.desired { assert Chosen(cat, table, inp, k, t.desired[k]); }
      }
    }
  }

  /** A reconciliation that does not apply to the sign-in touches nothing. */
  lemma OutcomeSkips(cat: Catalog, table: seq<Mapping>, rows: Rows, audit: seq<AuditRow>, inp: SyncInput,
    newId: Key -> RowId)
    requires UniqueRows(rows) && NewIds(newId, rows) && (inp.org == "" || inp.org == PLATFORM_ORG || inp.user == "")
    ensures SyncOutcome(cat, table, rows, audit, inp, newId) == State(rows, audit, SyncResult([], [], [], []))
  {
  }

  /** Tenancy: whatever row a reconciliation adds or changes carries a role the organisation owns or a
      platform system role, for a resource of the organisation itself. */
  lemma OutcomeStaysInOrg(cat: Catalog, table: seq<Mapping>, rows: Rows, audit: seq<AuditRow>, inp: SyncInput,
    newId: Key -> RowId, id: RowId)
    requires UniqueRows(rows) && NewIds(newId, rows) && inp.org != "" && inp.org != PLATFORM_ORG && inp.user != ""
    requires var after := SyncOutcome(cat, table, rows, audit, inp, newId).rows;
             id in after && (id !in rows || after[id] != rows[id])
    ensures var m := SyncOutcome(cat, table, rows, audit, inp, newId).rows[id];
            m.org == inp.org && m.actor == inp.user && m.actorType == "user" && m.source == IdP &&
            m.role.Some? && m.role.value in cat.roles &&
            (cat.roles[m.role.value].org == inp.org ||
             (cat.roles[m.role.value].org == PLATFORM_ORG && cat.roles[m.role.value].isSystem)) &&
            match m.key.rt {
              case "org" => m.key.rid == "" || m.key.rid == inp.org
              case "team" => (m.key.rid, inp.org) in cat.teams
              case "project" => (m.key.rid, inp.org) in cat.projects
              case _ => false
            }
  {
    hide Upserts, Removes, Chosen, PlanFor, GroupSet, ForProvider, UniqueRows;
    var t, ks := TaskFor(cat, table, rows, inp, newId), OrderFor(cat, table, inp);
    TaskForIsValid(cat, table, rows, inp, newId);
    SyncFinal(t, ks, StaleIds(t), State(rows, audit, NOTHING));
    var after := Removes(t, StaleIds(t), Upserts(t, ks, State(rows, audit, NOTHING))).rows;
    var k := after[id].key;
    ChangedIsDesired(t, after, id);
    DesiredIsChosen(cat, table, inp, k);
    ChosenFits(cat, table, inp, k, t.desired[k]);
  }

  lemma ChangedIsDesired(t: Task, after: Rows, id: RowId)
    requires t.Valid() && Final(t, after) && id in after && (id !in t.before || after[id] != t.before[id])
    ensures Mine(after[id], t.org, t.user) && after[id].source == IdP && after[id].key in t.desired &&
            after[id].role == Some(t.desired[after[id].key])
  {
    hide RoleUsable, NewIds;
    if id !in t.before { assert after[t.newId(after[id].key)] == t.NewRow(after[id].key); }
  }

  lemma ChosenFits(cat: Catalog, table: seq<Mapping>, inp: SyncInput, k: Key, role: Id)
    requires Chosen(cat, table, inp, k, role)
    ensures RoleUsable(cat, inp.org, role) && ResourceUsable(cat, inp.org, k)
  {
  }

  /** The one audit row that names the organisation's only owner. */
  ghost predicate KeptOnly(cat: Catalog, rows: Rows, inp: SyncInput, kept: seq<AuditRow>) {
    exists id :: id in rows && kept == [OwnerPreserved(inp.org, inp.user, id)] && Owners(cat, rows, inp.org) == {id}
  }

  /** The audit trail of a reconciliation: a row for the preserved owner if there is one, then one
      row with the three lists if, and only if, the table changed. */
  lemma OutcomeAudits(cat: Catalog, table: seq<Mapping>, rows: Rows, audit: seq<AuditRow>, inp: SyncInput,
    newId: Key -> RowId)
    requires UniqueRows(rows) && NewIds(newId, rows) && inp.org != "" && inp.org != PLATFORM_ORG && inp.user != ""
    ensures var out, k := SyncOutcome(cat, table, rows, audit, inp, newId), OrgKey(inp.org);
            exists kept: seq<AuditRow> ::
              out.audit == audit + kept +
                (if out.rows == rows then []
                 else [MembershipSynced(inp.org, inp.user, inp.provider, out.res.added, out.res.updated,
                   out.res.removed)]) &&
              (kept == [] || KeptOnly(cat, rows, inp, kept)) &&
              (kept != [] <==> KeepsOwnerAt(cat, table, rows, inp, k) && !HeldElsewhere(rows, inp, k))
  {
    hide Upserts, Removes, Final, Fits, Chosen, PlanFor, GroupSet, ForProvider;
    var t, ks := TaskFor(cat, table, rows, inp, newId), OrderFor(cat, table, inp);
    TaskForIsValid(cat, table, rows, inp, newId);
    SyncAudits(t, ks, StaleIds(t), State(rows, audit, NOTHING));
    ChangedIffTableDiffers(t, ks, StaleIds(t), State(rows, audit, NOTHING));
    OwnerAuditFromTable(cat, table, rows, inp, newId);
    var f := Removes(t, StaleIds(t), Upserts(t, ks, State(rows, audit, NOTHING)));
    assert SyncOutcome(cat, table, rows, audit, inp, newId).audit == audit + OwnerAudit(t, true) +
      SyncedAudit(inp, f.res);
  }

  lemma OwnerAuditFromTable(cat: Catalog, table: seq<Mapping>, rows: Rows, inp: SyncInput, newId: Key -> RowId)
    requires UniqueRows(rows) && TaskFor(cat, table, rows, inp, newId).Valid()
    ensures var kept := OwnerAudit(TaskFor(cat, table, rows, inp, newId), true);
            (kept == [] || KeptOnly(cat, rows, inp, kept)) &&
            (kept != [] <==>
              KeepsOwnerAt(cat, table, rows, inp, OrgKey(inp.org)) && !HeldElsewhere(rows, inp, OrgKey(inp.org)))
  {
    hide UniqueRows, NewIds, Fits, Chosen, PlanFor, GroupSet, ForProvider, SnapFor, IsOwner, OwnerEquivalent,
      RoleUsable;
    var t, k := TaskFor(cat, table, rows, inp, newId), OrgKey(inp.org);
    DesiredIsChosen(cat, table, inp, k);
    forall id | id in rows && Mine(rows[id], inp.org, inp.user) && rows[id].key == k
      ensures k in t.snap && t.snap[k] == id {}
    if k in t.snap {
      var id := t.snap[k];
      assert id in rows && Mine(rows[id], inp.org, inp.user) && rows[id].key == k;
      assert KeepsOwnerAt(cat, table, rows, inp, k) <==> t.Preserved(id) by {
        if k in t.desired { assert Chosen(cat, table, inp, k, t.desired[k]); }
      }
    }
  }

  class MembershipStore {
    var cat: Catalog
    var table: seq<Mapping>
    var rows: Rows
    var audit: seq<AuditRow>

    constructor (cat: Catalog, table: seq<Mapping>, rows: Rows)
      ensures this.cat == cat && this.table == table && this.rows == rows && audit == []
    {
      this.cat, this.table, this.rows, this.audit := cat, table, rows, [];
    }

    method KeepLastOwner(org: Id, user: Id, id: RowId, m: Membership, newRole: Option<Id>) returns (keep: bool)
      requires newRole.Some? ==> newRole.value in cat.roles
      modifies this`audit
      ensures keep <==> KeepsLastOwner(cat, rows, org, id, m, newRole)
      ensures audit == old(audit) + if keep then [OwnerPreserved(org, user, id)] else []
    {
      keep := false;
      if m.key != OrgKey(org) { return; }
      if newRole.Some? && OwnerEquivalent(newRole.value, cat.roles[newRole.value]) { return; }
      var any, last := ReadOwners(cat, rows, org, id);
      if last {
        audit := audit + [OwnerPreserved(org, user, id)];
        keep := true;
      }
    }

    method ReadExisting(org: Id, user: Id) returns (existing: map<Key, RowId>)
      requires UniqueRows(rows)
      ensures SnapOf(rows, org, user, existing) && existing == SnapFor(rows, org, user)
    {
      var todo := set id | id in rows && Mine(rows[id], org, user);
      existing := map[];
      while todo != {}
        invariant forall id :: id in todo ==> id in rows && Mine(rows[id], org, user)
        invariant forall k :: k in existing ==>
                  existing[k] in rows && Mine(rows[existing[k]], org, user) && rows[existing[k]].key == k
        invariant forall id :: id in rows && Mine(rows[id], org, user) && id !in todo ==> rows[id].key in existing
        decreases todo
      {
        var id :| id in todo;
        existing := existing[rows[id].key := id];
        todo := todo - {id};
      }
      SnapForIsSnap(rows, org, user);
      forall id | id in rows && Mine(rows[id], org, user) ensures existing[rows[id].key] == id {
        assert SameSlot(rows[existing[rows[id].key]], rows[id]);
      }
      assert existing.Keys == SnapFor(rows, org, user).Keys;
    }

    method BuildPlan(org: Id, groups: set<string>, mappings: seq<Mapping>)
      returns (desired: map<Key, Id>, order: seq<Key>)
      ensures Plan(desired, order) == PlanFor(cat, org, groups, mappings)
    {
      desired, order := map[], [];
      for i := 0 to |mappings|
        invariant Plan(desired, order) == PlanFor(cat, org, groups, mappings[..i])
      {
        assert mappings[..i + 1][..i] == mappings[..i];
        var m := mappings[i];
        if m.group in groups && m.key !in desired && RoleUsable(cat, org, m.role) && ResourceUsable(cat, org, m.key) {
          desired := desired[m.key := m.role];
          order := order + [m.key];
        }
      }
      assert mappings[..|mappings|] == mappings;
    }

    method ApplyDesired(t: Task, order: seq<Key>) returns (res: SyncResult)
      requires Doable(t, order) && t.cat == cat
      modifies this`rows, this`audit
      ensures State(rows, audit, res) == Upserts(t, order, State(old(rows), old(audit), NOTHING))
    {
      res := NOTHING;
      ghost var s0 := State(rows, audit, NOTHING);
      for i := 0 to |order|
        invariant t.cat == cat
        invariant Doable(t, order[..i])
        invariant State(rows, audit, res) == Upserts(t, order[..i], s0)
      {
        assert order[..i + 1][..i] == order[..i] && order[i] in order;
        assert Doable(t, order[..i + 1]);
        var k := order[i];
        var role := t.desired[k];
        var sm := Synced(k, role);
        if k !in t.snap {
          rows := rows[t.newId(k) := t.NewRow(k)];
          res := res.(added := res.added + [sm]);
        } else if t.before[t.snap[k]].source != IdP {
          res := res.(kept := res.kept + [sm]);
        } else if t.before[t.snap[k]].role != Some(role) {
          var keep := KeepLastOwner(t.org, t.user, t.snap[k], t.before[t.snap[k]], Some(role));
          if keep {
            res := res.(kept := res.kept + [sm]);
          } else {
            rows := UpdateIdPRole(rows, t.snap[k], t.org, role);
            res := res.(updated := res.updated + [sm]);
          }
        }
      }
      assert order[..|order|] == order;
    }

    method ApplyStale(t: Task, stale: seq<RowId>, start: SyncResult) returns (res: SyncResult)
      requires (forall id :: id in stale ==> id in t.before) && t.cat == cat
      modifies this`rows, this`audit
      ensures State(rows, audit, res) == Removes(t, stale, State(old(rows), old(audit), start))
    {
      res := start;
      ghost var s0 := State(rows, audit, start);
      for i := 0 to |stale|
        invariant t.cat == cat
        invariant forall id :: id in stale[..i] ==> id in t.before
        invariant State(rows, audit, res) == Removes(t, stale[..i], s0)
      {
        assert stale[..i + 1][..i] == stale[..i] && stale[i] in stale;
        var m := t.before[stale[i]];
        var keep := KeepLastOwner(t.org, t.user, stale[i], m, None);
        if keep {
          res := res.(kept := res.kept + [Synced(m.key, RoleText(m.role))]);
        } else {
          rows := DeleteIdP(rows, stale[i], t.org);
          res := res.(removed := res.removed + [Synced(m.key, RoleText(m.role))]);
        }
      }
      assert stale[..|stale|] == stale;
    }

    method StaleOf(t: Task) returns (stale: seq<RowId>)
      requires t.Valid()
      ensures stale == StaleIds(t)
      ensures forall id :: id in stale ==> id in t.before
    {
      var rowsLeft := set k | k in t.snap && k !in t.desired && t.before[t.snap[k]].source == IdP :: t.snap[k];
      forall id ensures id in rowsLeft <==> id in t.before && IsStale(t, id) {
        if id in t.before && IsStale(t, id) { assert t.snap[t.before[id].key] == id; }
      }
      assert rowsLeft == set id | id in t.before && IsStale(t, id);
      stale := SortedIds(rowsLeft);
    }

    /** Both write loops: the desired resources, then the stale rows. */
    method RunTask(t: Task, order: seq<Key>) returns (res: SyncResult)
      requires t.Valid() && Doable(t, order) && t.cat == cat
      modifies this`rows, this`audit
      ensures State(rows, audit, res) ==
              Removes(t, StaleIds(t), Upserts(t, order, State(old(rows), old(audit), NOTHING)))
    {
      var stale := StaleOf(t);
      res := ApplyDesired(t, order);
      res := ApplyStale(t, stale, res);
    }

    /** The whole reconciliation, as one transaction step. */
    method ReconcileIdPMemberships(inp: SyncInput, newId: Key -> RowId) returns (res: SyncResult)
      requires UniqueRows(rows) && NewIds(newId, rows)
      modifies this`rows, this`audit
      ensures State(rows, audit, res) == SyncOutcome(cat, table, old(rows), old(audit), inp, newId)
    {
      res := NOTHING;
      if inp.org == "" || inp.org == PLATFORM_ORG || inp.user == "" { return; }
      var desired, order := BuildPlan(inp.org, GroupSet(inp.groups), ForProvider(table, inp.org, inp.provider));
      var existing := ReadExisting(inp.org, inp.user);
      var t := Task(cat, inp.org, inp.user, rows, existing, desired, newId);
      assert t == TaskFor(cat, table, rows, inp, newId) && order == OrderFor(cat, table, inp);
      TaskForIsValid(cat, table, rows, inp, newId);
      res := RunTask(t, order);
      audit := audit + SyncedAudit(inp, res);
    }
  }

  predicate Skips(inp: SyncInput) {
    inp.org == "" || inp.org == PLATFORM_ORG || inp.user == ""
  }

  /** The membership.synced row, written only when something changed. */
  function SyncedAudit(inp: SyncInput, res: SyncResult): seq<AuditRow> {
    if res.Changed() then [MembershipSynced(inp.org, inp.user, inp.provider, res.added, res.updated, res.removed)]
      else []
  }
}
