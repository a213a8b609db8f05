/** The tenancy tables: roles, users, memberships and IdP group mappings, with the
    owner-equivalence rule that last-owner protection and group sync share. */
module Tenancy {

  datatype Option<+T> = None | Some(value: T)

  /** Ids of organisations, users, roles, teams and projects. */
  type Id = string

  /** A membership row id: 32 hex digits, read as the number they denote, so that
      comparing row ids as strings is comparing these numbers. */
  type RowId = nat

  const PLATFORM_ORG: Id := "00000000000000000000000000000000"
  const OWNER_ROLE: Id := "00000000000000000000000000000000"

  /** grants_json, decoded: text that is not a JSON string list is Unreadable. */
  datatype Grants = Unreadable | Readable(list: seq<string>)

  datatype Role = Role(org: Id, isSystem: bool, grants: Grants)

  datatype Source = Manual | Invite | Jit | IdP | Scim

  datatype Key = Key(rt: string, rid: Id)

  datatype Membership = Membership(
    org: Id, actorType: string, actor: Id, key: Key, role: Option<Id>, source: Source)

  /** One IdP group mapping; a provider of None applies to every provider of the org. */
  datatype Mapping = Mapping(org: Id, provider: Option<Id>, group: string, role: Id, key: Key)

  /** The tables a membership change reads but never writes. Teams and projects are
      (id, org) pairs; liveUsers are the users without a deletion time. */
  datatype Catalog = Catalog(
    roles: map<Id, Role>, liveUsers: set<Id>, teams: set<(Id, Id)>, projects: set<(Id, Id)>)

  type Rows = map<RowId, Membership>

  /** unicode.IsSpace. */
  predicate IsSpace(c: char) {
    c == ' ' || '\t' <= c <= '\r' || c == '\U{0085}' || c == '\U{00A0}' || c == '\U{1680}' ||
    '\U{2000}' <= c <= '\U{200A}' || c == '\U{2028}' || c == '\U{2029}' || c == '\U{202F}' ||
    c == '\U{205F}' || c == '\U{3000}'
  }

  function TrimLeft(s: string): string {
    if s != "" && IsSpace(s[0]) then TrimLeft(s[1..]) else s
  }

  function TrimRight(s: string): string {
    if s != "" && IsSpace(s[|s| - 1]) then TrimRight(s[..|s| - 1]) else s
  }

  function TrimSpace(s: string): string {
    TrimRight(TrimLeft(s))
  }

  predicate Blank(s: string) { forall i :: 0 <= i < |s| ==> IsSpace(s[i]) }

  /** Neither end is white space. */
  predicate Tight(s: string) { s != "" ==> !IsSpace(s[0]) && !IsSpace(s[|s| - 1]) }

  lemma {:induction false} TrimLeftSplits(s: string) returns (before: string)
    ensures Blank(before) && s == before + TrimLeft(s) && (TrimLeft(s) != "" ==> !IsSpace(TrimLeft(s)[0]))
  {
    before := "";
    if s != "" && IsSpace(s[0]) {
      var rest := TrimLeftSplits(s[1..]);
      before := [s[0]] + rest;
    }
  }

  lemma {:induction false} TrimRightSplits(s: string) returns (after: string)
    ensures Blank(after) && s == TrimRight(s) + after &&
            (TrimRight(s) != "" ==> !IsSpace(TrimRight(s)[|TrimRight(s)| - 1]))
  {
    after := "";
    if s != "" && IsSpace(s[|s| - 1]) {
      var rest := TrimRightSplits(s[..|s| - 1]);
      after := rest + [s[|s| - 1]];
      assert s == s[..|s| - 1] + [s[|s| - 1]];
    }
  }

  /** Trimming takes white space from both ends and leaves none there. */
  lemma TrimSpaceSplits(s: string) returns (before: string, after: string)
    ensures Blank(before) && Blank(after) && s == before + TrimSpace(s) + after && Tight(TrimSpace(s))
  {
    before := TrimLeftSplits(s);
    after := TrimRightSplits(TrimLeft(s));
    var t := TrimSpace(s);
    assert TrimLeft(s) == t + after;
    if t != "" { assert TrimLeft(s)[0] == t[0]; }
  }

  predicate OwnerEquivalent(id: Id, r: Role) {
    id == OWNER_ROLE || r.grants.Unreadable? || exists g :: g in r.grants.list && TrimSpace(g) == "*"
  }

  predicate RoleUsable(cat: Catalog, org: Id, role: Id) {
    role != "" && org != "" && org != PLATFORM_ORG && role in cat.roles &&
    (cat.roles[role].org == org || (cat.roles[role].org == PLATFORM_ORG && cat.roles[role].isSystem))
  }

  predicate ResourceUsable(cat: Catalog, org: Id, k: Key) {
    match k.rt
    case "org" => k.rid == "" || k.rid == org
    case "team" => (k.rid, org) in cat.teams
    case "project" => (k.rid, org) in cat.projects
    case _ => false
  }

  /** The key of an org-level membership in org. */
  function OrgKey(org: Id): Key { Key("org", org) }

  /** An org-level membership of a live user whose role exists. */
  predicate OwnerCandidate(cat: Catalog, m: Membership, org: Id) {
    m.org == org && m.actorType == "user" && m.key == OrgKey(org) && m.actor in cat.liveUsers &&
    m.role.Some? && m.role.value in cat.roles
  }

  predicate IsOwner(cat: Catalog, m: Membership, org: Id) {
    OwnerCandidate(cat, m, org) && OwnerEquivalent(m.role.value, cat.roles[m.role.value])
  }

  function Owners(cat: Catalog, rows: Rows, org: Id): set<RowId> {
    set id | id in rows && IsOwner(cat, rows[id], org)
  }

  predicate HasOwner(cat: Catalog, rows: Rows, org: Id) {
    exists id :: id in rows && IsOwner(cat, rows[id], org)
  }

  /** No element twice. */
  predicate Distinct<T(==)>(q: seq<T>) {
    q == [] || (q[|q| - 1] !in q[..|q| - 1] && Distinct(q[..|q| - 1]))
  }

  /** UNIQUE(org_id, actor_id, actor_type, resource_type, resource_id). */
  predicate SameSlot(a: Membership, b: Membership) {
    a.org == b.org && a.actor == b.actor && a.actorType == b.actorType && a.key == b.key
  }

  ghost predicate UniqueRows(rows: Rows) {
    forall i, j :: i in rows && j in rows && SameSlot(rows[i], rows[j]) ==> i == j
  }

  /** INSERT INTO memberships: the primary key and the resource slot must be free. */
  predicate CanInsert(rows: Rows, id: RowId, m: Membership) {
    id !in rows && forall i :: i in rows ==> !SameSlot(rows[i], m)
  }

  function InsertRow(rows: Rows, id: RowId, m: Membership): Option<Rows> {
    if CanInsert(rows, id, m) then Some(rows[id := m]) else None
  }

  // ---- Invites and just-in-time roles ---------------------------------------------------

  /** An invite, keyed by the hash of its token. */
  datatype Invitation = Invitation(email: string, org: Id, key: Key, role: Option<Id>, expires: int, accepted: bool)

  type Invites = map<string, Invitation>

  predicate PendingInvite(invites: Invites, token: string, now: int) {
    token != "" && token in invites && !invites[token].accepted && now < invites[token].expires
  }

  /** AcceptInvite: the invite is spent and the membership it names is user's; None when it is not
      pending or the insert fails. */
  function AcceptInvite(invites: Invites, rows: Rows, token: string, user: Id, now: int, id: RowId): Option<(Invites,
    Rows)> {
    if !PendingInvite(invites, token, now) then None
    else
      var inv := invites[token];
      match InsertRow(rows, id, Membership(inv.org, "user", user, inv.key, inv.role, Source.Invite))
      case None => None
      case Some(after) => Some((invites[token := inv.(accepted := true)], after))
  }

  /** The part of org_sso_settings that says whether JIT is on, and with which role. */
  datatype JitSettings = JitSettings(enabled: bool, defaultRole: Option<Id>)

  /** JITDefaultRole: the default role while JIT is on and the role is usable and not an
      owner role. */
  function JitRole(cat: Catalog, jit: map<Id, JitSettings>, org: Id): Option<Id> {
    if org != "" && org != PLATFORM_ORG && org in jit && jit[org].enabled && jit[org].defaultRole.Some? &&
       RoleUsable(cat, org, jit[org].defaultRole.value) &&
       !OwnerEquivalent(jit[org].defaultRole.value, cat.roles[jit[org].defaultRole.value])
    then jit[org].defaultRole else None
  }

  /** Has user an org-level membership in org? */
  predicate Belongs(rows: Rows, org: Id, user: Id) {
    exists i :: i in rows && rows[i].org == org && rows[i].actorType == "user" && rows[i].actor == user &&
      rows[i].key == OrgKey(org)
  }

  lemma HasOwnerIsOwners(cat: Catalog, rows: Rows, org: Id)
    ensures HasOwner(cat, rows, org) <==> Owners(cat, rows, org) != {}
  {
    if HasOwner(cat, rows, org) {
      var id :| id in rows && IsOwner(cat, rows[id], org);
      assert id in Owners(cat, rows, org);
    }
    if Owners(cat, rows, org) != {} {
      var id :| id in Owners(cat, rows, org);
      assert IsOwner(cat, rows[id], org);
    }
  }

  function MinId(s: set<RowId>): (m: RowId)
    requires s != {}
    ensures m in s && forall x :: x in s ==> m <= x
  {
    MinExists(s);
    assert exists m :: m in s && forall x :: x in s ==> m <= x by {
      var m :| IsMin(s, m);
      assert m in s && forall x :: x in s ==> m <= x;
    }
    var m :| m in s && forall x :: x in s ==> m <= x;
    m
  }

  ghost predicate IsMin(s: set<RowId>, m: RowId) {
    m in s && forall x :: x in s ==> m <= x
  }

  lemma MinExists(s: set<RowId>)
    requires s != {}
    ensures exists m :: IsMin(s, m)
  {
    var y :| y in s;
    var rest := s - {y};
    if rest == {} {
      assert s == {y};
      assert IsMin(s, y);
    } else {
      MinExists(rest);
      var m :| IsMin(rest, m);
      assert IsMin(s, if m <= y then m else y) by {
        forall x | x in s ensures (if m <= y then m else y) <= x { assert x == y || x in rest; }
      }
    }
  }

  /** The ids of s in ascending order (ORDER BY id, sort.Slice by id). */
  function SortedIds(s: set<RowId>): (q: seq<RowId>)
    ensures forall id :: id in q <==> id in s
    ensures Ascending(q)
  {
    if s == {} then [] else var m := MinId(s); [m] + SortedIds(s - {m})
  }

  predicate Ascending(q: seq<RowId>) {
    forall i, j :: 0 <= i < j < |q| ==> q[i] < q[j]
  }

  /** The rows of the owner-candidate query, by id. */
  function Candidates(cat: Catalog, rows: Rows, org: Id): seq<RowId> {
    SortedIds(set id | id in rows && OwnerCandidate(cat, rows[id], org))
  }

  /** The filter step: the candidates whose role is owner-equivalent, in order. */
  function KeepOwners(cat: Catalog, rows: Rows, org: Id, ids: seq<RowId>): (kept: seq<RowId>)
    requires forall id :: id in ids ==> id in rows
  {
    if ids == [] then []
    else
      var front, last := ids[..|ids| - 1], ids[|ids| - 1];
      assert ids == front + [last];
      KeepOwners(cat, rows, org, front) + (if IsOwner(cat, rows[last], org) then [last] else [])
  }

  /** It keeps exactly the owner rows. */
  lemma {:induction false} KeepOwnersKeeps(cat: Catalog, rows: Rows, org: Id, ids: seq<RowId>, id: RowId)
    requires forall i :: i in ids ==> i in rows
    ensures id in KeepOwners(cat, rows, org, ids) <==> id in ids && IsOwner(cat, rows[id], org)
  {
    hide IsOwner;
    if ids == [] {
    } else {
      var front, last := ids[..|ids| - 1], ids[|ids| - 1];
      assert ids == front + [last];
      KeepOwnersKeeps(cat, rows, org, front, id);
    }
  }

  lemma {:induction false} KeepOwnersAscends(cat: Catalog, rows: Rows, org: Id, ids: seq<RowId>)
    requires Ascending(ids) && forall id :: id in ids ==> id in rows
    ensures Ascending(KeepOwners(cat, rows, org, ids))
  {
    if ids == [] {
    } else {
      var front, last := ids[..|ids| - 1], ids[|ids| - 1];
      KeepOwnersAscends(cat, rows, org, front);
      var kept := KeepOwners(cat, rows, org, front);
      forall i | 0 <= i < |kept| ensures kept[i] < last {
        KeepOwnersKeeps(cat, rows, org, front, kept[i]);
        assert kept[i] in kept && kept[i] in front;
      }
    }
  }

  lemma KeepOwnersSnoc(cat: Catalog, rows: Rows, org: Id, ids: seq<RowId>, id: RowId)
    requires id in rows && forall i :: i in ids ==> i in rows
    ensures KeepOwners(cat, rows, org, ids + [id]) ==
            KeepOwners(cat, rows, org, ids) + if IsOwner(cat, rows[id], org) then [id] else []
  {
    assert (ids + [id])[..|ids|] == ids;
  }

  lemma KeepOwnersNone(cat: Catalog, rows: Rows, org: Id)
    ensures KeepOwners(cat, rows, org, []) == []
  {
  }

  /** The owner memberships among the candidate rows, filtered in place: they move to
      the front of the buffer, in order, as rows[:0] with append does it. */
  method FilterOwners(cat: Catalog, rows: Rows, org: Id, buf: array<RowId>) returns (n: nat)
    requires forall id :: id in buf[..] ==> id in rows
    modifies buf
    ensures n <= buf.Length
    ensures buf[..n] == KeepOwners(cat, rows, org, old(buf[..]))
  {
    hide KeepOwners;
    ghost var q := buf[..];
    n := 0;
    KeepOwnersNone(cat, rows, org);
    for i := 0 to buf.Length
      invariant n <= i
      invariant forall k :: i <= k < buf.Length ==> buf[k] == q[k]
      invariant forall id :: id in q[..i] ==> id in rows
      invariant buf[..n] == KeepOwners(cat, rows, org, q[..i])
    {
      assert q[..i + 1] == q[..i] + [q[i]];
      assert q[i] in q && q[i] in rows;
      KeepOwnersSnoc(cat, rows, org, q[..i], q[i]);
      if IsOwner(cat, rows[buf[i]], org) {
        buf[n] := buf[i];
        n := n + 1;
      }
    }
    assert q[..buf.Length] == q;
  }

  lemma AscendingElements(q: seq<RowId>, s: set<RowId>, id: RowId)
    requires Ascending(q) && forall x :: x in q <==> x in s
    ensures |q| > 0 <==> s != {}
    ensures |q| == 1 && q[0] == id <==> s == {id}
  {
    if |q| > 0 { assert q[0] in q; }
    if s != {} { var x :| x in s; assert x in q; }
    if |q| > 1 { assert q[1] in q && q[0] < q[1]; }
  }

  /** Filtering the candidates leaves exactly the owner rows, so its length and first
      entry answer both questions asked of it. */
  lemma KeptAreOwners(cat: Catalog, rows: Rows, org: Id, id: RowId)
    ensures var kept := KeepOwners(cat, rows, org, Candidates(cat, rows, org));
            (|kept| > 0 <==> HasOwner(cat, rows, org)) &&
            (|kept| == 1 && kept[0] == id <==> Owners(cat, rows, org) == {id})
  {
    HasOwnerIsOwners(cat, rows, org);
    KeepOwnersAscends(cat, rows, org, Candidates(cat, rows, org));
    forall x ensures x in KeepOwners(cat, rows, org, Candidates(cat, rows, org)) <==> x in Owners(cat, rows, org) {
      KeepOwnersKeeps(cat, rows, org, Candidates(cat, rows, org), x);
    }
    AscendingElements(KeepOwners(cat, rows, org, Candidates(cat, rows, org)), Owners(cat, rows, org), id);
  }

  /** The owner role itself, one whose grants cannot be read, or one that grants everything. */
  predicate Empowers(cat: Catalog, role: Option<Id>) {
    role.Some? && role.value in cat.roles &&
    (role.value == "00000000000000000000000000000000" || cat.roles[role.value].grants == Unreadable ||
     exists g :: g in cat.roles[role.value].grants.list && TrimSpace(g) == "*")
  }

  /** Reading the owner list: whether org has an owner at all, and whether the row id is
      its only owner. */
  method ReadOwners(cat: Catalog, rows: Rows, org: Id, id: RowId) returns (any: bool, last: bool)
    ensures any <==> HasOwner(cat, rows, org)
    ensures any <==>
            exists i :: i in rows && rows[i].org == org && rows[i].actorType == "user" &&
              rows[i].key == Key("org", org) && rows[i].actor in cat.liveUsers && Empowers(cat, rows[i].role)
    ensures last <==> Owners(cat, rows, org) == {id}
  {
    var q := Candidates(cat, rows, org);
    var buf := new RowId[|q|](i requires 0 <= i < |q| => q[i]);
    assert buf[..] == q;
    var n := FilterOwners(cat, rows, org, buf);
    any, last := n > 0, n == 1 && buf[0] == id;
    KeptAreOwners(cat, rows, org, id);
  }
}
