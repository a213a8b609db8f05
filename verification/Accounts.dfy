/** Login resolution, the bootstrap claim and sign-in methods: the transactions of
    internal/auth that create users, link identities, register passkeys, create memberships and
    open sessions. */
module Accounts {
  import opened Tenancy
  import GroupSync

  datatype User = User(email: string, deleted: bool, emailVerified: bool)
  datatype Identity = Identity(user: Id, provider: Id, subject: string, email: string)
  datatype Passkey = Passkey(user: Id, credential: string, signCount: nat)
  datatype Session = Session(user: Id, provider: Id, expires: int)

  datatype Audit =
    | Bootstrapped(user: Id)
    | SignedUp(user: Id, via: string)
    | LinkedByEmail(user: Id, provider: Id)
    | Linked(user: Id, identity: Id)
    | Unlinked(user: Id, identity: Id)
    | PasskeyRegistered(user: Id, passkey: Id)
    | PasskeyDeleted(user: Id, passkey: Id)
    | LoggedIn(user: Id, provider: Id)
    | SyncSkipped(user: Id, org: Id)
    | SyncRow(row: GroupSync.AuditRow)
    | JitJoined(user: Id, org: Id)

  /** users, identities and webauthn_credentials. */
  datatype People = People(users: map<Id, User>, identities: map<Id, Identity>, passkeys: map<Id, Passkey>)

  /** All tables. Sessions and invites are keyed by the hash of their secret; tokenHash is the hash
      of a generated bootstrap token ("" for none). */
  datatype Db = Db(
    people: People, members: Rows, sessions: map<string, Session>, invites: Invites,
    bootstrapDone: bool, tokenHash: string, passkeysOn: bool, audit: seq<Audit>)

  /** envHash is the hash of BC_BOOTSTRAP_TOKEN ("" when unset). */
  datatype Config = Config(isAdminEmail: string -> bool, hasBootstrap: bool, envHash: string)

  const FORMER_MEMBER: Id := "ffffffffffffffffffffffffffffffff"
  const PASSKEY_PROVIDER: Id := "passkey"
  const PLATFORM_OWNER_ROLE: Id := OWNER_ROLE
  const MAX_PASSKEYS := 20

  /** What an assertion says about groups: nothing under the claim, too many to list, or these. */
  datatype GroupClaim = Absent | Overage | Present(groups: seq<string>)

  /** org_sso_settings of the provider's org, and whether SCIM manages the user there. */
  datatype Sso = Sso(scimManaged: bool, groupSync: bool)

  /** What the transaction reads about organisations. verifiedOrg is the org that verified the
      email's domain; scimUser is an active SCIM user whose address matches the asserted one up to
      case. */
  datatype Orgs = Orgs(
    cat: Catalog, mappings: seq<Mapping>, jit: map<Id, JitSettings>, sso: Option<Sso>, verifiedOrg: Id,
      scimUser: Option<Id>)

  /** The random ids a transaction draws: newId(k) is the row group sync inserts for resource k. */
  datatype Draws = Draws(user: Id, row: Id, token: string, invited: RowId, granted: RowId, joined: RowId,
    synced: Key -> RowId)

  /** Everything a transaction reads from outside the tables. fails stands for any storage error
      after the writes. */
  datatype World = World(now: int, expires: int, orgs: Orgs, ids: Draws, fails: bool)

  datatype LoginRequest = LoginRequest(
    provider: Id, subject: string, email: string, emailVerified: bool,
    org: Id, trustEmail: bool, allowSignup: bool, groups: GroupClaim,
    presented: string, link: bool, linkSession: string, invite: string, bootstrapHash: string)

  datatype Result = Refused(reason: string) | Failed | Ok(user: Id)

  /** The tables as the transaction body left them, before commit or rollback. */
  datatype Out = Out(db: Db, res: Result)

  // ---- The account tables ---------------------------------------------------------------

  ghost predicate HasIdentity(p: People, provider: Id, subject: string, id: Id) {
    id in p.identities && p.identities[id].provider == provider && p.identities[id].subject == subject
  }

  /** Does the user already have an identity at this provider? */
  predicate HasProvider(p: People, user: Id, provider: Id) {
    exists i :: i in p.identities && p.identities[i].user == user && p.identities[i].provider == provider
  }

  predicate EmailTaken(p: People, email: string) {
    exists u :: u in p.users && p.users[u].email == email
  }

  predicate CredentialTaken(p: People, credential: string) {
    exists k :: k in p.passkeys && p.passkeys[k].credential == credential
  }

  function IdentitiesOf(p: People, user: Id): set<Id> {
    set i | i in p.identities && p.identities[i].user == user
  }

  function PasskeysOf(p: People, user: Id): set<Id> {
    set k | k in p.passkeys && p.passkeys[k].user == user
  }

  /** SignInMethodCount: identities, plus passkeys while the platform has them on. */
  function SignInMethods(p: People, passkeysOn: bool, user: Id): nat {
    |IdentitiesOf(p, user)| + if passkeysOn then |PasskeysOf(p, user)| else 0
  }

  /** Inserting an identity row: its key and its (provider, subject) must be free, and its
      user must exist. */
  ghost predicate CanLink(p: People, id: Id, x: Identity) {
    id !in p.identities && x.user in p.users && forall i :: !HasIdentity(p, x.provider, x.subject, i)
  }

  function AddIdentity(p: People, id: Id, x: Identity): People { p.(identities := p.identities[id := x]) }
  function AddUser(p: People, u: Id, x: User): People { p.(users := p.users[u := x]) }
  function AddKey(p: People, k: Id, x: Passkey): People { p.(passkeys := p.passkeys[k := x]) }
  function DropIdentity(p: People, id: Id): People { p.(identities := p.identities - {id}) }
  function DropKey(p: People, k: Id): People { p.(passkeys := p.passkeys - {k}) }

  function TouchIdentity(p: People, id: Id, email: string): People
    requires id in p.identities
  {
    p.(identities := p.identities[id := p.identities[id].(email := email)])
  }

  function TouchKey(p: People, k: Id, signCount: nat): People
    requires k in p.passkeys
  {
    p.(passkeys := p.passkeys[k := p.passkeys[k].(signCount := signCount)])
  }

  // ---- Bootstrap, invites, sessions -------------------------------------------------------

  function ExpectedHash(c: Config, db: Db): string {
    if c.envHash != "" then c.envHash else db.tokenHash
  }

  predicate Claims(c: Config, db: Db, hash: string) {
    c.hasBootstrap && !db.bootstrapDone && hash != "" && ExpectedHash(c, db) != "" && ExpectedHash(c, db) == hash
  }

  function SetBootstrapDone(db: Db): Db {
    db.(bootstrapDone := true, tokenHash := "")
  }

  /** A user's membership at the level of the platform organisation, whatever its role. */
  predicate PlatformRow(m: Membership) {
    m.org == PLATFORM_ORG && m.actorType == "user" && m.key == OrgKey(PLATFORM_ORG)
  }

  function PlatformMembers(rows: Rows): set<Id> { set id | id in rows && PlatformRow(rows[id]) :: rows[id].actor }

  /** ensurePlatformAdmin: a membership with the platform's owner role, unless the user has a
      platform membership of any role. None when the insert fails. */
  function EnsurePlatformMember(db: Db, u: Id, id: RowId): Option<Db> {
    if Belongs(db.members, PLATFORM_ORG, u) then Some(db)
    else
      match InsertRow(db.members, id, Membership(PLATFORM_ORG, "user", u, OrgKey(PLATFORM_ORG),
        Some(PLATFORM_OWNER_ROLE), Manual))
      case None => None
      case Some(rows) => Some(db.(members := rows))
  }

  /** AcceptInvite on the tables. */
  function TakeInvite(db: Db, token: string, u: Id, w: World): Option<Db> {
    match AcceptInvite(db.invites, db.members, token, u, w.now, w.ids.invited)
    case None => None
    case Some(after) => Some(db.(invites := after.0, members := after.1))
  }

  function Log(db: Db, rows: seq<Audit>): Db { db.(audit := db.audit + rows) }

  /** Rotation: the presented session goes, a new one comes. */
  function OpenSession(db: Db, presented: string, token: string, s: Session): Db {
    db.(sessions := (db.sessions - if presented != "" then {presented} else {})[token := s])
  }

  // ---- Login resolution --------------------------------------------------------------------

  /** linkOrSignUp's decision for an unseen identity. */
  datatype Unseen = Deny(reason: string) | LinkTo(user: Id) | SignUp(via: string, email: string)

  predicate TrustedForEmail(r: LoginRequest, w: World) {
    r.email != "" && r.emailVerified && r.trustEmail && (r.org == "" || w.orgs.verifiedOrg == r.org)
  }

  /** scimLinkTarget. */
  predicate ScimVouches(p: People, r: LoginRequest, w: World) {
    r.org != "" && r.email != "" && w.orgs.verifiedOrg == r.org && w.orgs.scimUser.Some? &&
      w.orgs.scimUser.value in p.users &&
    !p.users[w.orgs.scimUser.value].deleted && w.orgs.scimUser.value != FORMER_MEMBER
  }

  function SignUpMethod(db: Db, r: LoginRequest, w: World, claim: bool): Unseen {
    var verified := r.email != "" && r.emailVerified;
    if PendingInvite(db.invites, r.invite, w.now) then SignUp("invite", db.invites[r.invite].email)
    else if verified && claim then SignUp("bootstrap", r.email)
    else if JitApplies(r, w) then SignUp("jit", r.email)
    else if !verified then Deny("email_unverified")
    else if r.allowSignup && r.org == "" then SignUp("open", r.email)
    else Deny("no_account")
  }

  /** The user with this address; at most one, by the UNIQUE constraint. */
  ghost function UserByEmail(p: People, email: string): (u: Id)
    requires EmailTaken(p, email)
    ensures u in p.users && p.users[u].email == email
  {
    var u :| u in p.users && p.users[u].email == email;
    u
  }

  ghost function DecideUnseen(db: Db, r: LoginRequest, w: World, claim: bool): Unseen {
    if !TrustedForEmail(r, w) && ScimVouches(db.people, r, w) then LinkTo(w.orgs.scimUser.value)
    else if TrustedForEmail(r, w) && EmailTaken(db.people, r.email) &&
      !Linkable(db.people, r.email) then Deny("user_deleted")
    else if TrustedForEmail(r, w) && EmailTaken(db.people, r.email) &&
      db.people.users[UserByEmail(db.people, r.email)].emailVerified then
      LinkTo(UserByEmail(db.people, r.email))
    else
      var m := SignUpMethod(db, r, w, claim);
      if m.SignUp? && EmailTaken(db.people, m.email) then Deny("no_account") else m
  }

  ghost predicate Linkable(p: People, email: string)
    requires EmailTaken(p, email)
  {
    !p.users[UserByEmail(p, email)].deleted && UserByEmail(p, email) != FORMER_MEMBER
  }

  /** Steps 1 to 4: who the assertion is. Either a user is known and the tables hold its
      identity, or the transaction ends here. */
  datatype Found = Known(db: Db, user: Id) | Ends(out: Out)

  ghost function Identify(db: Db, r: LoginRequest, w: World, claim: bool): Found {
    if i :| HasIdentity(db.people, r.provider, r.subject, i) then
      var u := db.people.identities[i].user;
      if u !in db.people.users then Ends(Out(db, Failed))
      else if db.people.users[u].deleted then Ends(Out(db, Refused("user_deleted")))
      else Known(db.(people := TouchIdentity(db.people, i, r.email)), u)
    else
      Attach(db, r, w, DecideUnseen(db, r, w, claim))
  }

  /** linkOrSignUp's decision carried out: the identity, the new user and its invite. */
  ghost function Attach(db: Db, r: LoginRequest, w: World, d: Unseen): Found {
    match d
    case Deny(reason) => Ends(Out(db, Refused(reason)))
    case LinkTo(u) =>
      var x := Identity(u, r.provider, r.subject, r.email);
      if !CanLink(db.people, w.ids.row, x) then Ends(Out(db, Failed))
      else Known(Log(db.(people := AddIdentity(db.people, w.ids.row, x)), [LinkedByEmail(u, r.provider)]), u)
    case SignUp(via, email) =>
      var x := Identity(w.ids.user, r.provider, r.subject, r.email);
      var db1 := db.(people := AddUser(db.people, w.ids.user, User(email, false, true)));
      if w.ids.user in db.people.users then Ends(Out(db, Failed))
      else if !CanLink(db1.people, w.ids.row, x) then Ends(Out(db1, Failed))
      else
        var db2 := db1.(people := AddIdentity(db1.people, w.ids.row, x));
        match if via == "invite" then TakeInvite(db2, r.invite, w.ids.user, w) else Some(db2)
        case None => Ends(Out(db2, Failed))
        case Some(db3) => Known(Log(db3, [SignedUp(w.ids.user, via)]), w.ids.user)
  }

  // ---- Provisioning at sign-in -----------------------------------------------------------------

  /** Membership rows and the audit rows written with them. */
  datatype Written = Written(rows: Rows, audit: seq<Audit>)

  function SyncRows(rows: seq<GroupSync.AuditRow>): seq<Audit> {
    seq(|rows|, i requires 0 <= i < |rows| => SyncRow(rows[i]))
  }

  /** groupSync: reconcile with the asserted groups, unless the assertion does not list them. The
      unique constraint on rows always holds (Good below). */
  ghost function Reconciled(rows: Rows, r: LoginRequest, u: Id, w: World): Option<Written> {
    match r.groups
    case Absent => Some(Written(rows, []))
    case Overage => Some(Written(rows, [SyncSkipped(u, r.org)]))
    case Present(groups) =>
      if !UniqueRows(rows) || !GroupSync.NewIds(w.ids.synced, rows) then None
      else
        var inp := GroupSync.SyncInput(r.org, u, r.provider, groups);
        var out := GroupSync.SyncOutcome(w.orgs.cat, w.orgs.mappings, rows, [], inp, w.ids.synced);
        Some(Written(out.rows, SyncRows(out.audit)))
  }

  /** jitApplies. */
  predicate JitApplies(r: LoginRequest, w: World) {
    r.org != "" && r.email != "" && JitRole(w.orgs.cat, w.orgs.jit, r.org).Some? && w.orgs.verifiedOrg == r.org
  }

  function Joined(rows: Rows, r: LoginRequest, u: Id, w: World): Option<Written> {
    if !JitApplies(r, w) || Belongs(rows, r.org, u) then Some(Written(rows, []))
    else
      match InsertRow(rows, w.ids.joined,
        Membership(r.org, "user", u, OrgKey(r.org), JitRole(w.orgs.cat, w.orgs.jit, r.org), Jit))
      case None => None
      case Some(after) => Some(Written(after, [JitJoined(u, r.org)]))
  }

  /** orgProvisioning: group sync, then a JIT membership for a user who has none in the org. None
      when a write fails. */
  ghost function Provision(db: Db, r: LoginRequest, u: Id, w: World): Option<Db> {
    if r.org == "" || r.org == PLATFORM_ORG || w.orgs.sso.None? || w.orgs.sso.value.scimManaged then Some(db)
    else
      match if w.orgs.sso.value.groupSync then Reconciled(db.members, r, u, w) else Some(Written(db.members, []))
      case None => None
      case Some(first) =>
        match Joined(first.rows, r, u, w)
        case None => None
        case Some(second) => Some(Log(db.(members := second.rows), first.audit + second.audit))
  }

  predicate IsAdminClaim(c: Config, r: LoginRequest) {
    r.emailVerified && c.isAdminEmail(r.email) && r.org == ""
  }

  predicate IsTokenClaim(c: Config, db: Db, r: LoginRequest) {
    !db.bootstrapDone && r.bootstrapHash != "" && Claims(c, db, r.bootstrapHash)
  }

  /** resolveTx: the bootstrap gate, steps 1 to 4, provisioning, then the grant, the claim row and
      the session. */
  ghost function ResolveTx(c: Config, db: Db, r: LoginRequest, w: World): Out {
    if r.link then LinkTx(db, r, w)
    else
      var claim := !db.bootstrapDone;
      var grant := IsAdminClaim(c, r) || IsTokenClaim(c, db, r);
      if claim && !grant then Out(db, Refused("not_bootstrap_admin"))
      else
        var db1 := if claim then SetBootstrapDone(db) else db;
        match Identify(db1, r, w, claim)
        case Ends(out) => out
        case Known(db2, u) =>
          match Provision(db2, r, u, w)
          case None => Out(db2, Failed)
          case Some(db3) => SignIn(db3, u, grant, claim, r.provider, r.presented, w)
  }

  /** Everything after the user is known and provisioned. */
  function SignIn(db: Db, u: Id, grant: bool, claim: bool, provider: Id, presented: string, w: World): Out {
    match if grant then EnsurePlatformMember(db, u, w.ids.granted) else Some(db)
    case None => Out(db, Failed)
    case Some(db1) =>
      var db2 := if claim then Log(db1, [Bootstrapped(u)]) else db1;
      if w.fails || w.ids.token in db2.sessions then Out(db2, Failed)
      else Out(Log(OpenSession(db2, presented, w.ids.token, Session(u, provider, w.expires)),
        [LoggedIn(u, provider)]), Ok(u))
  }

  predicate LiveSession(db: Db, hash: string, now: int) {
    hash != "" && hash in db.sessions && db.sessions[hash].user in db.people.users &&
    !db.people.users[db.sessions[hash].user].deleted && now < db.sessions[hash].expires
  }

  /** linkTx: attach the asserted identity to the user of the session that started the link. */
  ghost function LinkTx(db: Db, r: LoginRequest, w: World): Out {
    if r.presented != r.linkSession || !LiveSession(db, r.linkSession, w.now) then Out(db, Refused("link_session"))
    else
      var u := db.sessions[r.linkSession].user;
      var x := Identity(u, r.provider, r.subject, r.email);
      if i :| HasIdentity(db.people, r.provider, r.subject, i) then
        if db.people.identities[i].user != u then Out(db, Refused("identity_in_use")) else Out(db, Ok(u))
      else if HasProvider(db.people, u, r.provider) then
        Out(db, Refused("provider_already_linked"))
      else if w.fails || !CanLink(db.people, w.ids.row, x) then Out(db, Failed)
      else Out(Log(db.(people := AddIdentity(db.people, w.ids.row, x)), [Linked(u, w.ids.row)]), Ok(u))
  }

  // ---- Passkeys ---------------------------------------------------------------------------

  predicate SignCountRegressed(stored: nat, got: nat) {
    stored > 0 && got <= stored
  }

  function PasskeyLoginTx(db: Db, key: Id, user: Id, signCount: nat, presented: string, w: World): Out {
    var p := db.people;
    if !db.passkeysOn then Out(db, Refused("passkeys_disabled"))
    else if !db.bootstrapDone then Out(db, Refused("not_bootstrap_admin"))
    else if user !in p.users || p.users[user].deleted || user == FORMER_MEMBER then Out(db, Refused("user_deleted"))
    else if key !in p.passkeys || p.passkeys[key].user != user then Out(db, Refused("passkey_unknown"))
    else if SignCountRegressed(p.passkeys[key].signCount, signCount) then Out(db, Refused("passkey_clone"))
    else SignIn(db.(people := TouchKey(p, key, signCount)), user, false, false, PASSKEY_PROVIDER, presented, w)
  }

  /** PasskeySignup: a new user whose first sign-in method is a passkey, by bootstrap token or
      invite. */
  function PasskeySignupTx(c: Config, db: Db, email: string, invite: string, bootstrapHash: string,
                           key: Passkey, presented: string, w: World): Out {
    if !db.passkeysOn then Out(db, Refused("passkeys_disabled"))
    else if bootstrapHash != "" then
      if !Claims(c, db, bootstrapHash) then Out(db, Refused("setup_invalid"))
      else NewPasskeyUser(SetBootstrapDone(db), User(email, false, false), true, "", key, presented, w)
    else if invite != "" then
      if !db.bootstrapDone then Out(db, Refused("not_bootstrap_admin"))
      else if !PendingInvite(db.invites, invite, w.now) then Out(db, Refused("invite_invalid"))
      else NewPasskeyUser(db, User(db.invites[invite].email, false, true), false, invite, key, presented, w)
    else Out(db, Refused("invite_invalid"))
  }

  function NewPasskeyUser(db: Db, user: User, claim: bool, invite: string, key: Passkey, presented: string,
    w: World): Out {
    if user.email == "" then Out(db, Refused("invite_invalid"))
    else if EmailTaken(db.people, user.email) then Out(db, Refused("account_exists"))
    else if CredentialTaken(db.people, key.credential) then Out(db, Refused("passkey_exists"))
    else if w.ids.user in db.people.users || w.ids.row in db.people.passkeys then Out(db, Failed)
    else
      var db1 := WithPasskeyUser(db, user, claim, key, w);
      match if claim then Some(db1) else TakeInvite(db1, invite, w.ids.user, w)
      case None => Out(db1, Failed)
      case Some(db2) => SignIn(db2, w.ids.user, claim, claim, PASSKEY_PROVIDER, presented, w)
  }

  /** The user, its passkey and their audit rows. */
  function WithPasskeyUser(db: Db, user: User, claim: bool, key: Passkey, w: World): Db {
    var u := w.ids.user;
    var db1 := db.(people := AddKey(AddUser(db.people, u, user), w.ids.row, key.(user := u)));
    Log(Log(db1, [SignedUp(u, if claim then "bootstrap" else "invite")]), [PasskeyRegistered(u, w.ids.row)])
  }

  function AddPasskeyTx(db: Db, key: Passkey, w: World): Out {
    if !db.passkeysOn then Out(db, Refused("passkeys_disabled"))
    else if |PasskeysOf(db.people, key.user)| >= MAX_PASSKEYS then Out(db, Refused("passkey_limit"))
    else if CredentialTaken(db.people, key.credential) then Out(db, Refused("passkey_exists"))
    else if w.ids.row in db.people.passkeys || key.user !in db.people.users || w.fails then Out(db, Failed)
    else Out(Log(db.(people := AddKey(db.people, w.ids.row, key)), [PasskeyRegistered(key.user, w.ids.row)]),
      Ok(key.user))
  }

  // ---- Removing a sign-in method ------------------------------------------------------------

  /** identity.unlink: the row goes, what is left is counted, and the sessions signed in
      through that provider end. */
  function UnlinkTx(db: Db, user: Id, id: Id, w: World): Out {
    if id !in db.people.identities || db.people.identities[id].user != user then Out(db, Refused("no_rows"))
    else
      var provider := db.people.identities[id].provider;
      var db1 := db.(people := DropIdentity(db.people, id));
      if SignInMethods(db1.people, db1.passkeysOn, user) < 1 then Out(db1, Refused("last_sign_in_method"))
      else
        var db2 := db1.(sessions := map t | t in db1.sessions &&
          !(db1.sessions[t].user == user && db1.sessions[t].provider == provider) :: db1.sessions[t]);
        if w.fails then Out(db2, Failed) else Out(Log(db2, [Unlinked(user, id)]), Ok(user))
  }

  function DeletePasskeyTx(db: Db, user: Id, key: Id, w: World): Out {
    if key !in db.people.passkeys || db.people.passkeys[key].user != user then Out(db, Refused("no_rows"))
    else
      var db1 := db.(people := DropKey(db.people, key));
      if SignInMethods(db1.people, db1.passkeysOn, user) < 1 then Out(db1, Refused("last_sign_in_method"))
      else if w.fails then Out(db1, Failed)
      else Out(Log(db1, [PasskeyDeleted(user, key)]), Ok(user))
  }

  // ---- Steps --------------------------------------------------------------------------------

  datatype Step =
    | Resolve(r: LoginRequest)
    | PasskeyLogin(key: Id, user: Id, signCount: nat, presented: string)
    | PasskeySignup(email: string, invite: string, bootstrapHash: string, newKey: Passkey, presented: string)
    | AddPasskey(newKey: Passkey)
    | Unlink(user: Id, identity: Id)
    | DeletePasskey(user: Id, key: Id)
    | PrepareToken(hash: string)
    | DropSessions(gone: set<string>)
    | CreateInvite(token: string, invitation: Invitation)
    | TakeUpInvite(user: Id, token: string)

  /** The body of the step's transaction, with whatever it wrote before giving up. */
  ghost function Body(c: Config, db: Db, step: Step, w: World): Out {
    match step
    case Resolve(r) =>
      if r.provider == "" || r.subject == "" then Out(db, Refused("invalid_assertion")) else ResolveTx(c, db, r, w)
    case PasskeyLogin(key, user, n, presented) => PasskeyLoginTx(db, key, user, n, presented, w)
    case PasskeySignup(email, invite, hash, key, presented) =>
      PasskeySignupTx(c, db, email, invite, hash, key, presented, w)
    case AddPasskey(key) => AddPasskeyTx(db, key, w)
    case Unlink(user, id) => UnlinkTx(db, user, id, w)
    case DeletePasskey(user, key) => DeletePasskeyTx(db, user, key, w)
    case PrepareToken(hash) => Out(if db.bootstrapDone then db else db.(tokenHash := hash), Ok(""))
    case DropSessions(gone) => Out(db.(sessions := db.sessions - gone), Ok(""))
    case CreateInvite(token, invitation) =>
      if token in db.invites then Out(db, Failed)
      else Out(db.(invites := db.invites[token := invitation.(accepted := false)]), Ok(""))
    case TakeUpInvite(user, token) =>
      match TakeInvite(db, token, user, w) {
      case None => Out(db, Failed)
      case Some(after) => Out(after, Ok(user))
      }
  }

  /** The transaction: commit on success, roll back on any refusal or failure. */
  ghost function Next(c: Config, db: Db, step: Step, w: World): Db {
    var out := Body(c, db, step, w);
    if out.res.Ok? then out.db else db
  }

  // ---- Schema: what the constraints say, and what a step does to existing rows ---------------

  predicate SameSubject(a: Identity, b: Identity) { a.provider == b.provider && a.subject == b.subject }
  predicate SameEmail(a: User, b: User) { a.email == b.email }
  predicate SameCredential(a: Passkey, b: Passkey) { a.credential == b.credential }

  ghost predicate UniqueSubjects(t: map<Id, Identity>) {
    forall i, j :: i in t && j in t && SameSubject(t[i], t[j]) ==> i == j
  }

  ghost predicate UniqueEmails(t: map<Id, User>) {
    forall u, v :: u in t && v in t && SameEmail(t[u], t[v]) ==> u == v
  }

  ghost predicate UniqueCredentials(t: map<Id, Passkey>) {
    forall k, l :: k in t && l in t && SameCredential(t[k], t[l]) ==> k == l
  }

  ghost predicate HoldersExist(p: People) {
    (forall i :: i in p.identities ==> p.identities[i].user in p.users) &&
    (forall k :: k in p.passkeys ==> p.passkeys[k].user in p.users)
  }

  /** No (provider, subject), address or credential twice, and no method without its user. */
  ghost predicate Schema(p: People) {
    UniqueSubjects(p.identities) && UniqueEmails(p.users) && UniqueCredentials(p.passkeys) && HoldersExist(p)
  }

  predicate SameHolder(a: Identity, b: Identity) { b == a.(email := b.email) }
  predicate Advanced(a: Passkey, b: Passkey) { b == a.(signCount := b.signCount) && b.signCount >= a.signCount }

  ghost predicate UsersKept(a: map<Id, User>, b: map<Id, User>) {
    forall u :: u in a ==> u in b && b[u] == a[u]
  }

  ghost predicate IdentitiesKept(a: map<Id, Identity>, b: map<Id, Identity>) {
    (forall i :: i in a && i in b ==> SameHolder(a[i], b[i])) && (a.Keys <= b.Keys || b.Keys <= a.Keys)
  }

  ghost predicate KeysKept(a: map<Id, Passkey>, b: map<Id, Passkey>) {
    forall k :: k in a && k in b ==> Advanced(a[k], b[k])
  }

  /** Users never change, identities never move to another user or subject, passkeys never
      change hands or count backwards. */
  ghost predicate RowsKept(p: People, q: People) {
    UsersKept(p.users, q.users) && IdentitiesKept(p.identities, q.identities) && KeysKept(p.passkeys, q.passkeys)
  }

  ghost predicate Sound(p: People, q: People) { Schema(q) && RowsKept(p, q) }

  lemma KeptItself(p: People)
    ensures RowsKept(p, p)
  {
  }

  lemma AddIdentitySound(p: People, id: Id, x: Identity)
    requires Schema(p) && CanLink(p, id, x)
    ensures Sound(p, AddIdentity(p, id, x))
  {
    hide UniqueEmails, UniqueCredentials, UsersKept, KeysKept;
    KeptItself(p);
    forall i | i in p.identities ensures !SameSubject(p.identities[i], x) && !SameSubject(x, p.identities[i]) {
      assert !HasIdentity(p, x.provider, x.subject, i);
    }
  }

  lemma AddUserSound(p: People, u: Id, x: User)
    requires Schema(p) && u !in p.users && !EmailTaken(p, x.email)
    ensures Sound(p, AddUser(p, u, x))
  {
    hide UniqueSubjects, UniqueCredentials, IdentitiesKept, KeysKept;
    KeptItself(p);
  }

  lemma AddKeySound(p: People, k: Id, x: Passkey)
    requires Schema(p) && k !in p.passkeys && x.user in p.users && !CredentialTaken(p, x.credential)
    ensures Sound(p, AddKey(p, k, x))
  {
    hide UniqueSubjects, UniqueEmails, UsersKept, IdentitiesKept;
    KeptItself(p);
  }

  lemma TouchSound(p: People, i: Id, email: string)
    requires Schema(p) && i in p.identities
    ensures Sound(p, TouchIdentity(p, i, email))
  {
    hide UniqueEmails, UniqueCredentials, UsersKept, KeysKept;
    KeptItself(p);
    var q := TouchIdentity(p, i, email);
    forall a, b | a in q.identities && b in q.identities && SameSubject(q.identities[a], q.identities[b])
      ensures a == b
    {
      assert SameSubject(p.identities[a], p.identities[b]);
    }
  }

  lemma TouchKeySound(p: People, k: Id, n: nat)
    requires Schema(p) && k in p.passkeys && !SignCountRegressed(p.passkeys[k].signCount, n)
    ensures Sound(p, TouchKey(p, k, n))
  {
    hide UniqueSubjects, UniqueEmails, UsersKept, IdentitiesKept;
    KeptItself(p);
    var q := TouchKey(p, k, n);
    forall a, b | a in q.passkeys && b in q.passkeys && SameCredential(q.passkeys[a], q.passkeys[b]) ensures a == b {
      assert SameCredential(p.passkeys[a], p.passkeys[b]);
    }
  }

  lemma DropIdentitySound(p: People, id: Id)
    requires Schema(p)
    ensures Sound(p, DropIdentity(p, id))
  {
    hide UniqueEmails, UniqueCredentials, UsersKept, KeysKept;
    KeptItself(p);
  }

  lemma DropKeySound(p: People, id: Id)
    requires Schema(p)
    ensures Sound(p, DropKey(p, id))
  {
    hide UniqueSubjects, UniqueEmails, UsersKept, IdentitiesKept;
    KeptItself(p);
  }

  lemma SoundItself(p: People)
    requires Schema(p)
    ensures Sound(p, p)
  {
  }

  lemma SignUpIsFree(db: Db, r: LoginRequest, w: World, claim: bool)
    requires DecideUnseen(db, r, w, claim).SignUp?
    ensures !EmailTaken(db.people, DecideUnseen(db, r, w, claim).email)
  {
  }

  /** A login that ends before its user is known has not succeeded. */
  lemma IdentifyEnds(db: Db, r: LoginRequest, w: World, claim: bool)
    ensures Identify(db, r, w, claim).Ends? ==> !Identify(db, r, w, claim).out.res.Ok?
  {
    hide DecideUnseen, CanLink, AcceptInvite;
  }

  /** What Attach leaves alone. */
  lemma AttachFrames(db: Db, r: LoginRequest, w: World, d: Unseen)
    requires Attach(db, r, w, d).Known?
    ensures var q := Attach(db, r, w, d).db;
            q.people.passkeys == db.people.passkeys && q.passkeysOn == db.passkeysOn &&
              q.bootstrapDone == db.bootstrapDone
  {
    hide CanLink, AcceptInvite;
  }

  lemma SignInFrames(db: Db, u: Id, grant: bool, claim: bool, provider: Id, presented: string, w: World)
    ensures var q := SignIn(db, u, grant, claim, provider, presented, w).db;
            q.people == db.people && q.passkeysOn == db.passkeysOn
  {
    hide Belongs, InsertRow;
  }

  lemma ProvisionFrames(db: Db, r: LoginRequest, u: Id, w: World)
    requires Provision(db, r, u, w).Some?
    ensures var q := Provision(db, r, u, w).value; q.people == db.people && q.passkeysOn == db.passkeysOn
  {
    hide Reconciled, Joined;
  }

  /** A login that is not a link is Identify, then writes that leave the account tables alone. */
  lemma ResolveShape(c: Config, db: Db, r: LoginRequest, w: World)
    requires !r.link && ResolveTx(c, db, r, w).res.Ok?
    ensures var db1 := if !db.bootstrapDone then SetBootstrapDone(db) else db;
            var k, q := Identify(db1, r, w, !db.bootstrapDone), ResolveTx(c, db, r, w).db;
            k.Known? && q.people == k.db.people && q.passkeysOn == k.db.passkeysOn
  {
    hide Identify, Provision, SignIn;
    var claim, grant := !db.bootstrapDone, IsAdminClaim(c, r) || IsTokenClaim(c, db, r);
    var k := Identify(if claim then SetBootstrapDone(db) else db, r, w, claim);
    IdentifyEnds(if claim then SetBootstrapDone(db) else db, r, w, claim);
    ProvisionFrames(k.db, r, k.user, w);
    SignInFrames(Provision(k.db, r, k.user, w).value, k.user, grant, claim, r.provider, r.presented, w);
  }

  lemma UnseenSound(db: Db, r: LoginRequest, w: World, claim: bool)
    requires Schema(db.people) && Identify(db, r, w, claim).Known?
    requires !exists i :: HasIdentity(db.people, r.provider, r.subject, i)
    ensures Sound(db.people, Identify(db, r, w, claim).db.people)
  {
    hide DecideUnseen, RowsKept, Schema, AcceptInvite;
    var p, d := db.people, DecideUnseen(db, r, w, claim);
    if d.LinkTo? {
      AddIdentitySound(p, w.ids.row, Identity(d.user, r.provider, r.subject, r.email));
    } else if d.SignUp? {
      SignUpIsFree(db, r, w, claim);
      var q := AddUser(p, w.ids.user, User(d.email, false, true));
      AddUserSound(p, w.ids.user, User(d.email, false, true));
      AddIdentitySound(q, w.ids.row, Identity(w.ids.user, r.provider, r.subject, r.email));
      SoundTrans(p, q, AddIdentity(q, w.ids.row, Identity(w.ids.user, r.provider, r.subject, r.email)));
    }
  }

  lemma SoundTrans(p: People, q: People, s: People)
    requires Sound(p, q) && Sound(q, s) && p.identities.Keys <= q.identities.Keys <= s.identities.Keys
    requires p.passkeys.Keys <= q.passkeys.Keys
    ensures Sound(p, s)
  {
    forall u | u in p.users ensures u in s.users && s.users[u] == p.users[u] { assert u in q.users; }
    forall i | i in p.identities && i in s.identities ensures SameHolder(p.identities[i], s.identities[i]) {
      assert SameHolder(p.identities[i], q.identities[i]) && SameHolder(q.identities[i], s.identities[i]);
    }
    forall k | k in p.passkeys && k in s.passkeys ensures Advanced(p.passkeys[k], s.passkeys[k]) {
      assert Advanced(p.passkeys[k], q.passkeys[k]) && Advanced(q.passkeys[k], s.passkeys[k]);
    }
  }

  lemma IdentifySound(db: Db, r: LoginRequest, w: World, claim: bool)
    requires Schema(db.people) && Identify(db, r, w, claim).Known?
    ensures Sound(db.people, Identify(db, r, w, claim).db.people)
  {
    hide Attach, DecideUnseen, Sound, Schema;
    var p := db.people;
    if exists i :: HasIdentity(p, r.provider, r.subject, i) {
      forall i | HasIdentity(p, r.provider, r.subject, i) ensures Sound(p, TouchIdentity(p, i, r.email)) {
        TouchSound(p, i, r.email);
      }
    } else {
      UnseenSound(db, r, w, claim);
    }
  }

  lemma LinkSound(db: Db, r: LoginRequest, w: World)
    requires Schema(db.people) && LinkTx(db, r, w).res.Ok?
    ensures Sound(db.people, LinkTx(db, r, w).db.people)
  {
    hide Sound;
    SoundItself(db.people);
    if !exists i :: HasIdentity(db.people, r.provider, r.subject, i) {
      AddIdentitySound(db.people, w.ids.row, Identity(db.sessions[r.linkSession].user, r.provider, r.subject, r.email));
    }
  }

  lemma ResolveSound(c: Config, db: Db, r: LoginRequest, w: World)
    requires Schema(db.people) && ResolveTx(c, db, r, w).res.Ok?
    ensures Sound(db.people, ResolveTx(c, db, r, w).db.people)
  {
    hide Identify, Provision, SignIn, LinkTx, Sound, Schema;
    if r.link {
      LinkSound(db, r, w);
    } else {
      ResolveShape(c, db, r, w);
      IdentifySound(if !db.bootstrapDone then SetBootstrapDone(db) else db, r, w, !db.bootstrapDone);
    }
  }

  lemma NewPasskeyUserShape(db: Db, user: User, claim: bool, invite: string, key: Passkey, presented: string, w: World)
    requires NewPasskeyUser(db, user, claim, invite, key, presented, w).res.Ok?
    ensures var q := NewPasskeyUser(db, user, claim, invite, key, presented, w).db;
            w.ids.user !in db.people.users && w.ids.row !in db.people.passkeys &&
            !EmailTaken(db.people, user.email) && !CredentialTaken(db.people, key.credential) &&
            q.people == AddKey(AddUser(db.people, w.ids.user, user), w.ids.row, key.(user := w.ids.user)) &&
            q.passkeysOn == db.passkeysOn
  {
    hide SignIn, AcceptInvite, AddKey, AddUser;
    var db1 := WithPasskeyUser(db, user, claim, key, w);
    var db2 := if claim then db1 else TakeInvite(db1, invite, w.ids.user, w).value;
    SignInFrames(db2, w.ids.user, claim, claim, PASSKEY_PROVIDER, presented, w);
  }

  lemma PasskeySignupShape(c: Config, db: Db, step: Step, w: World)
    requires step.PasskeySignup? && Body(c, db, step, w).res.Ok?
    ensures var q, key := Body(c, db, step, w).db, step.newKey.(user := w.ids.user);
            w.ids.user !in db.people.users && w.ids.row !in db.people.passkeys && q.passkeysOn && db.passkeysOn &&
            exists user :: q.people == AddKey(AddUser(db.people, w.ids.user, user), w.ids.row, key)
  {
    hide NewPasskeyUser;
    var claim := step.bootstrapHash != "";
    var user := if claim then User(step.email, false, false) else User(db.invites[step.invite].email, false, true);
    NewPasskeyUserShape(if claim then SetBootstrapDone(db) else db, user, claim, if claim then "" else step.invite,
                        step.newKey, step.presented, w);
  }

  lemma NewPasskeyUserSound(db: Db, user: User, claim: bool, invite: string, key: Passkey, presented: string, w: World)
    requires Schema(db.people) && NewPasskeyUser(db, user, claim, invite, key, presented, w).res.Ok?
    ensures Sound(db.people, NewPasskeyUser(db, user, claim, invite, key, presented, w).db.people)
  {
    hide NewPasskeyUser, Sound, Schema, CredentialTaken, EmailTaken;
    NewPasskeyUserShape(db, user, claim, invite, key, presented, w);
    var q, x := AddUser(db.people, w.ids.user, user), key.(user := w.ids.user);
    AddUserSound(db.people, w.ids.user, user);
    SignedUpSound(db.people, q, w.ids.row, x);
  }

  lemma SignedUpSound(p: People, q: People, k: Id, x: Passkey)
    requires Sound(p, q) && q.passkeys == p.passkeys && q.identities == p.identities
    requires k !in p.passkeys && x.user in q.users && !CredentialTaken(p, x.credential)
    ensures Sound(p, AddKey(q, k, x))
  {
    AddKeySound(q, k, x);
    SoundTrans(p, q, AddKey(q, k, x));
  }

  /** Over every step: no two users come to share an address and no identity or passkey is
      registered twice; and a step changes existing rows only as RowsKept allows. */
  lemma StepSound(c: Config, db: Db, step: Step, w: World)
    requires Schema(db.people)
    ensures Sound(db.people, Next(c, db, step, w).people)
  {
    hide ResolveTx, NewPasskeyUser, PasskeySignupTx, Sound, Schema, CredentialTaken, PasskeysOf, SignInMethods,
      AcceptInvite;
    SoundItself(db.people);
    if Body(c, db, step, w).res.Ok? {
      if step.Resolve? { ResolveSound(c, db, step.r, w); }
      else if step.PasskeyLogin? { TouchKeySound(db.people, step.key, step.signCount); }
      else if step.PasskeySignup? { PasskeySignupSound(c, db, step, w); }
      else if step.AddPasskey? { AddKeySound(db.people, w.ids.row, step.newKey); }
      else if step.Unlink? { DropIdentitySound(db.people, step.identity); }
      else if step.DeletePasskey? { DropKeySound(db.people, step.key); }
    }
  }

  lemma PasskeySignupSound(c: Config, db: Db, step: Step, w: World)
    requires Schema(db.people) && step.PasskeySignup? && Body(c, db, step, w).res.Ok?
    ensures Sound(db.people, Body(c, db, step, w).db.people)
  {
    if step.bootstrapHash != "" {
      NewPasskeyUserSound(SetBootstrapDone(db), User(step.email, false, false), true, "", step.newKey, step.presented,
        w);
    } else {
      NewPasskeyUserSound(db, User(db.invites[step.invite].email, false, true), false, step.invite, step.newKey,
        step.presented, w);
    }
  }

  /** No step re-points an identity: a (provider, subject) linked before and after belongs to
      the same user. */
  lemma NoStepRepoints(c: Config, db: Db, step: Step, w: World, provider: Id, subject: string, i: Id, j: Id)
    requires Schema(db.people) && HasIdentity(db.people, provider, subject, i)
    requires HasIdentity(Next(c, db, step, w).people, provider, subject, j)
    ensures Next(c, db, step, w).people.identities[j].user == db.people.identities[i].user
  {
    hide Body;
    StepSound(c, db, step, w);
    var p, q := db.people, Next(c, db, step, w).people;
    assert j in p.identities ==> SameSubject(p.identities[i], p.identities[j]);
    if i in q.identities {
      assert SameSubject(q.identities[i], q.identities[j]);
    }
  }

  // ---- The bootstrap claim ---------------------------------------------------------------------

  function ClaimOf(row: Audit): seq<Id> { if row.Bootstrapped? then [row.user] else [] }

  /** Who claimed the platform, from the audit trail. */
  function Claimants(audit: seq<Audit>): seq<Id> {
    if audit == [] then [] else Claimants(audit[..|audit| - 1]) + ClaimOf(audit[|audit| - 1])
  }

  lemma ClaimantsAppend(audit: seq<Audit>, row: Audit)
    ensures Claimants(audit + [row]) == Claimants(audit) + ClaimOf(row)
  {
    assert (audit + [row])[..|audit|] == audit;
  }

  // ---- Memberships ------------------------------------------------------------------------------

  lemma InsertAddsMember(rows: Rows, id: RowId, m: Membership)
    requires id !in rows
    ensures PlatformMembers(rows[id := m]) == PlatformMembers(rows) + if PlatformRow(m) then {m.actor} else {}
  {
    var after := rows[id := m];
    assert forall i :: i in rows ==> i in after && after[i] == rows[i];
    assert after[id] == m;
  }

  lemma InsertKeepsUnique(rows: Rows, id: RowId, m: Membership)
    requires UniqueRows(rows) && CanInsert(rows, id, m)
    ensures UniqueRows(rows[id := m])
  {
    forall i | i in rows ensures !SameSlot(rows[i], m) && !SameSlot(m, rows[i]) {}
  }

  /** What a write to memberships may do besides its purpose: nothing. */
  ghost predicate OnlyMembers(db: Db, q: Db) {
    q == db.(members := q.members, invites := q.invites, audit := q.audit) &&
      Claimants(q.audit) == Claimants(db.audit) &&
    (UniqueRows(db.members) ==> UniqueRows(q.members))
  }

  lemma EnsureAddsMember(db: Db, u: Id, id: RowId)
    requires EnsurePlatformMember(db, u, id).Some?
    ensures var q := EnsurePlatformMember(db, u, id).value;
            OnlyMembers(db, q) && q.audit == db.audit && PlatformMembers(q.members) == PlatformMembers(db.members) + {u}
  {
    var m := Membership(PLATFORM_ORG, "user", u, OrgKey(PLATFORM_ORG), Some(PLATFORM_OWNER_ROLE), Manual);
    if Belongs(db.members, PLATFORM_ORG, u) {
      assert u in PlatformMembers(db.members);
    } else {
      InsertAddsMember(db.members, id, m);
      if UniqueRows(db.members) { InsertKeepsUnique(db.members, id, m); }
    }
  }

  /** Does this token's invite name the platform organisation itself? */
  predicate PlatformInvite(db: Db, token: string) {
    token in db.invites && db.invites[token].org == PLATFORM_ORG && db.invites[token].key == OrgKey(PLATFORM_ORG)
  }

  lemma TakeAddsMember(db: Db, token: string, u: Id, w: World)
    requires TakeInvite(db, token, u, w).Some?
    ensures var q := TakeInvite(db, token, u, w).value;
            OnlyMembers(db, q) && q.audit == db.audit && PendingInvite(db.invites, token, w.now) &&
            PlatformMembers(q.members) == PlatformMembers(db.members) + if PlatformInvite(db, token) then {u} else {}
  {
    var inv := db.invites[token];
    var m := Membership(inv.org, "user", u, inv.key, inv.role, Source.Invite);
    InsertAddsMember(db.members, w.ids.invited, m);
    if UniqueRows(db.members) { InsertKeepsUnique(db.members, w.ids.invited, m); }
  }

  /** Group sync in one organisation leaves the platform's own rows alone. */
  lemma SyncKeepsPlatform(w: World, rows: Rows, inp: GroupSync.SyncInput)
    requires UniqueRows(rows) && GroupSync.NewIds(w.ids.synced, rows)
    ensures var after := GroupSync.SyncOutcome(w.orgs.cat, w.orgs.mappings, rows, [], inp, w.ids.synced).rows;
            UniqueRows(after) && PlatformMembers(after) == PlatformMembers(rows)
  {
    if !GroupSync.Skips(inp) {
      var t := GroupSync.TaskFor(w.orgs.cat, w.orgs.mappings, rows, inp, w.ids.synced);
      var ks := GroupSync.OrderFor(w.orgs.cat, w.orgs.mappings, inp);
      GroupSync.TaskForIsValid(w.orgs.cat, w.orgs.mappings, rows, inp, w.ids.synced);
      var s0 := GroupSync.State(rows, [], GroupSync.NOTHING);
      GroupSync.SyncFinal(t, ks, GroupSync.StaleIds(t), s0);
      var after := GroupSync.Removes(t, GroupSync.StaleIds(t), GroupSync.Upserts(t, ks, s0)).rows;
      GroupSync.SyncKeepsRowsUnique(t, after);
      FramedPlatform(t, after);
    }
  }

  lemma FramedPlatform(t: GroupSync.Task, after: Rows)
    requires t.Valid() && t.org != PLATFORM_ORG && GroupSync.Final(t, after)
    ensures PlatformMembers(after) == PlatformMembers(t.before)
  {
    hide GroupSync.Final;
    forall u ensures u in PlatformMembers(after) <==> u in PlatformMembers(t.before) {
      if u in PlatformMembers(after) {
        var id :| id in after && PlatformRow(after[id]) && after[id].actor == u;
        GroupSync.SyncFrames(t, after, id);
        assert id in t.before && PlatformRow(t.before[id]) && t.before[id].actor == u;
      }
      if u in PlatformMembers(t.before) {
        var id :| id in t.before && PlatformRow(t.before[id]) && t.before[id].actor == u;
        GroupSync.SyncFrames(t, after, id);
        assert id in after && PlatformRow(after[id]) && after[id].actor == u;
      }
    }
  }

  /** Rows of another organisation come and go; nobody becomes a platform member. */
  ghost predicate ElsewhereOnly(rows: Rows, out: Written) {
    PlatformMembers(out.rows) == PlatformMembers(rows) && (UniqueRows(rows) ==> UniqueRows(out.rows)) &&
    forall i :: 0 <= i < |out.audit| ==> !out.audit[i].Bootstrapped?
  }

  lemma ReconciledElsewhere(rows: Rows, r: LoginRequest, u: Id, w: World)
    requires Reconciled(rows, r, u, w).Some?
    ensures ElsewhereOnly(rows, Reconciled(rows, r, u, w).value)
  {
    if r.groups.Present? {
      SyncKeepsPlatform(w, rows, GroupSync.SyncInput(r.org, u, r.provider, r.groups.groups));
    }
  }

  lemma JoinedElsewhere(rows: Rows, r: LoginRequest, u: Id, w: World)
    requires r.org != PLATFORM_ORG && Joined(rows, r, u, w).Some?
    ensures ElsewhereOnly(rows, Joined(rows, r, u, w).value)
  {
    var m := Membership(r.org, "user", u, OrgKey(r.org), JitRole(w.orgs.cat, w.orgs.jit, r.org), Jit);
    if CanInsert(rows, w.ids.joined, m) {
      InsertAddsMember(rows, w.ids.joined, m);
      if UniqueRows(rows) { InsertKeepsUnique(rows, w.ids.joined, m); }
    }
  }

  /** Provisioning an organisation's user writes that organisation's rows only. */
  lemma ProvisionElsewhere(db: Db, r: LoginRequest, u: Id, w: World)
    requires Provision(db, r, u, w).Some?
    ensures var q := Provision(db, r, u, w).value;
            OnlyMembers(db, q) && q.invites == db.invites && PlatformMembers(q.members) == PlatformMembers(db.members)
  {
    hide Reconciled, Joined;
    if !(r.org == "" || r.org == PLATFORM_ORG || w.orgs.sso.None? || w.orgs.sso.value.scimManaged) {
      var first := if w.orgs.sso.value.groupSync then Reconciled(db.members, r, u, w).value
        else Written(db.members, []);
      if w.orgs.sso.value.groupSync { ReconciledElsewhere(db.members, r, u, w); }
      JoinedElsewhere(first.rows, r, u, w);
      ClaimantsAppendAll(db.audit, first.audit + Joined(first.rows, r, u, w).value.audit);
    }
  }

  lemma {:induction false} ClaimantsAppendAll(audit: seq<Audit>, rows: seq<Audit>)
    requires forall i :: 0 <= i < |rows| ==> !rows[i].Bootstrapped?
    ensures Claimants(audit + rows) == Claimants(audit)
  {
    if rows == [] {
      assert audit + rows == audit;
    } else {
      var front := rows[..|rows| - 1];
      ClaimantsAppendAll(audit, front);
      assert audit + rows == (audit + front) + [rows[|rows| - 1]];
      ClaimantsAppend(audit + front, rows[|rows| - 1]);
    }
  }

  // ---- The claim ----------------------------------------------------------------------------------

  /** The platform is claimed once: the audit trail names a claimant exactly when the flag is
      set, that user has a platform membership, and before the claim there is no session at all. */
  ghost predicate ClaimedOnce(db: Db) {
    |Claimants(db.audit)| == (if db.bootstrapDone then 1 else 0) &&
    (forall u :: u in Claimants(db.audit) ==> u in PlatformMembers(db.members)) &&
    (!db.bootstrapDone ==> db.sessions == map[])
  }

  /** The part of the tables the claim is about is as before; platform members may have come. */
  ghost predicate ClaimKept(a: Db, b: Db) {
    Claimants(a.audit) == Claimants(b.audit) && PlatformMembers(a.members) <= PlatformMembers(b.members) &&
    a.bootstrapDone == b.bootstrapDone && a.sessions == b.sessions && a.tokenHash == b.tokenHash
  }

  lemma LogKeepsClaim(db: Db, row: Audit)
    requires !row.Bootstrapped?
    ensures ClaimKept(db, Log(db, [row]))
  {
    ClaimantsAppend(db.audit, row);
  }

  lemma IdentifyKeepsClaim(db: Db, r: LoginRequest, w: World, claim: bool)
    requires Identify(db, r, w, claim).Known?
    ensures ClaimKept(db, Identify(db, r, w, claim).db)
  {
    if !exists i :: HasIdentity(db.people, r.provider, r.subject, i) {
      UnseenKeepsClaim(db, r, w, DecideUnseen(db, r, w, claim));
    }
  }

  lemma UnseenKeepsClaim(db: Db, r: LoginRequest, w: World, d: Unseen)
    requires Attach(db, r, w, d).Known?
    ensures ClaimKept(db, Attach(db, r, w, d).db)
  {
    match d
    case Deny(_) =>
    case LinkTo(u) =>
      var p := AddIdentity(db.people, w.ids.row, Identity(u, r.provider, r.subject, r.email));
      LogKeepsClaim(db.(people := p), LinkedByEmail(u, r.provider));
    case SignUp(via, email) =>
      var p := AddUser(db.people, w.ids.user, User(email, false, true));
      var q := AddIdentity(p, w.ids.row, Identity(w.ids.user, r.provider, r.subject, r.email));
      if via == "invite" {
        TakeAddsMember(db.(people := q), r.invite, w.ids.user, w);
        LogKeepsClaim(TakeInvite(db.(people := q), r.invite, w.ids.user, w).value, SignedUp(w.ids.user, via));
      } else {
        LogKeepsClaim(db.(people := q), SignedUp(w.ids.user, via));
      }
  }

  lemma SignInClaims(db: Db, u: Id, grant: bool, claim: bool, provider: Id, presented: string, w: World)
    requires SignIn(db, u, grant, claim, provider, presented, w).res.Ok?
    requires db.bootstrapDone && (claim ==> grant)
    requires |Claimants(db.audit)| == (if claim then 0 else 1) && forall v :: v in Claimants(db.audit) ==>
             v in PlatformMembers(db.members)
    ensures ClaimedOnce(SignIn(db, u, grant, claim, provider, presented, w).db)
    ensures Claimants(SignIn(db, u, grant, claim, provider, presented, w).db.audit) ==
            Claimants(db.audit) + if claim then [u] else []
  {
    hide PlatformMembers, EnsurePlatformMember, Claimants;
    if grant { EnsureAddsMember(db, u, w.ids.granted); }
    ClaimantsAppend(db.audit, Bootstrapped(u));
    var audit := if claim then db.audit + [Bootstrapped(u)] else db.audit;
    ClaimantsAppend(audit, LoggedIn(u, provider));
  }

  lemma NewPasskeyUserClaims(db: Db, user: User, claim: bool, invite: string, key: Passkey, presented: string, w: World)
    requires NewPasskeyUser(db, user, claim, invite, key, presented, w).res.Ok?
    requires db.bootstrapDone && |Claimants(db.audit)| == (if claim then 0 else 1)
    requires forall v :: v in Claimants(db.audit) ==> v in PlatformMembers(db.members)
    ensures ClaimedOnce(NewPasskeyUser(db, user, claim, invite, key, presented, w).db)
    ensures Claimants(NewPasskeyUser(db, user, claim, invite, key, presented, w).db.audit) ==
            Claimants(db.audit) + if claim then [w.ids.user] else []
  {
    hide AddKey, AddUser, SignIn, TakeInvite, EmailTaken, CredentialTaken;
    var u := w.ids.user;
    var db1 := db.(people := AddKey(AddUser(db.people, u, user), w.ids.row, key.(user := u)));
    var via := SignedUp(u, if claim then "bootstrap" else "invite");
    LogKeepsClaim(db1, via);
    LogKeepsClaim(Log(db1, [via]), PasskeyRegistered(u, w.ids.row));
    var db2 := WithPasskeyUser(db, user, claim, key, w);
    if claim {
      SignInClaims(db2, u, true, true, PASSKEY_PROVIDER, presented, w);
    } else {
      TakeAddsMember(db2, invite, u, w);
      SignInClaims(TakeInvite(db2, invite, u, w).value, u, false, false, PASSKEY_PROVIDER, presented, w);
    }
  }

  lemma LoginClaims(c: Config, db: Db, r: LoginRequest, w: World)
    requires ClaimedOnce(db) && !r.link && ResolveTx(c, db, r, w).res.Ok?
    ensures var q := ResolveTx(c, db, r, w).db;
            ClaimedOnce(q) && (db.bootstrapDone ==> Claimants(q.audit) == Claimants(db.audit))
  {
    hide Identify, Provision, SignIn, PlatformMembers, Claimants;
    var claim, grant := !db.bootstrapDone, IsAdminClaim(c, r) || IsTokenClaim(c, db, r);
    var db1 := if claim then SetBootstrapDone(db) else db;
    IdentifyEnds(db1, r, w, claim);
    var k := Identify(db1, r, w, claim);
    var q := Provision(k.db, r, k.user, w);
    assert ResolveTx(c, db, r, w) == SignIn(q.value, k.user, grant, claim, r.provider, r.presented, w);
    IdentifyKeepsClaim(db1, r, w, claim);
    ProvisionElsewhere(k.db, r, k.user, w);
    SignInClaims(q.value, k.user, grant, claim, r.provider, r.presented, w);
  }

  lemma LinkClaims(db: Db, r: LoginRequest, w: World)
    requires ClaimedOnce(db) && LinkTx(db, r, w).res.Ok?
    ensures var q := LinkTx(db, r, w).db; ClaimedOnce(q) && Claimants(q.audit) == Claimants(db.audit)
  {
    hide CanLink, PlatformMembers, HasProvider, Claimants;
    ClaimantsAppend(db.audit, Linked(db.sessions[r.linkSession].user, w.ids.row));
  }

  lemma ResolveClaims(c: Config, db: Db, r: LoginRequest, w: World)
    requires ClaimedOnce(db) && ResolveTx(c, db, r, w).res.Ok?
    ensures var q := ResolveTx(c, db, r, w).db;
            ClaimedOnce(q) && (db.bootstrapDone ==> Claimants(q.audit) == Claimants(db.audit))
  {
    hide LinkTx, Identify, Provision, SignIn, ClaimedOnce;
    if r.link {
      LinkClaims(db, r, w);
    } else {
      LoginClaims(c, db, r, w);
    }
  }

  lemma PasskeySignupClaims(c: Config, db: Db, step: Step, w: World)
    requires ClaimedOnce(db) && step.PasskeySignup? && Body(c, db, step, w).res.Ok?
    ensures var q := Body(c, db, step, w).db;
            ClaimedOnce(q) && (db.bootstrapDone ==> Claimants(q.audit) == Claimants(db.audit))
  {
    if step.bootstrapHash != "" {
      NewPasskeyUserClaims(SetBootstrapDone(db), User(step.email, false, false), true, "", step.newKey,
        step.presented, w);
    } else {
      NewPasskeyUserClaims(db, User(db.invites[step.invite].email, false, true), false, step.invite, step.newKey,
        step.presented, w);
    }
  }

  lemma PasskeyLoginClaims(db: Db, key: Id, user: Id, n: nat, presented: string, w: World)
    requires ClaimedOnce(db) && PasskeyLoginTx(db, key, user, n, presented, w).res.Ok?
    ensures var q := PasskeyLoginTx(db, key, user, n, presented, w).db;
            ClaimedOnce(q) && Claimants(q.audit) == Claimants(db.audit)
  {
    SignInClaims(db.(people := TouchKey(db.people, key, n)), user, false, false, PASSKEY_PROVIDER, presented, w);
  }

  lemma UnlinkClaims(db: Db, user: Id, id: Id, w: World)
    requires ClaimedOnce(db) && UnlinkTx(db, user, id, w).res.Ok?
    ensures var q := UnlinkTx(db, user, id, w).db; ClaimedOnce(q) && Claimants(q.audit) == Claimants(db.audit)
  {
    hide PlatformMembers, SignInMethods;
    ClaimantsAppend(db.audit, Unlinked(user, id));
    assert db.sessions == map[] ==> UnlinkTx(db, user, id, w).db.sessions == map[];
  }

  lemma AddPasskeyClaims(db: Db, key: Passkey, w: World)
    requires ClaimedOnce(db) && AddPasskeyTx(db, key, w).res.Ok?
    ensures var q := AddPasskeyTx(db, key, w).db; ClaimedOnce(q) && Claimants(q.audit) == Claimants(db.audit)
  {
    hide PlatformMembers, PasskeysOf, CredentialTaken, Claimants, AddKey;
    ClaimantsAppend(db.audit, PasskeyRegistered(key.user, w.ids.row));
  }

  lemma DeletePasskeyClaims(db: Db, user: Id, key: Id, w: World)
    requires ClaimedOnce(db) && DeletePasskeyTx(db, user, key, w).res.Ok?
    ensures var q := DeletePasskeyTx(db, user, key, w).db; ClaimedOnce(q) && Claimants(q.audit) == Claimants(db.audit)
  {
    hide PlatformMembers, SignInMethods;
    ClaimantsAppend(db.audit, PasskeyDeleted(user, key));
  }

  /** Over every step the platform is claimed at most once, by a user who becomes an admin, and
      nobody has a session before; a claimed platform keeps its claimant. */
  lemma StepKeepsClaim(c: Config, db: Db, step: Step, w: World)
    requires ClaimedOnce(db)
    ensures var q := Next(c, db, step, w);
            ClaimedOnce(q) && (db.bootstrapDone ==> Claimants(q.audit) == Claimants(db.audit))
  {
    if Body(c, db, step, w).res.Ok? {
      if step.Resolve? { ResolveClaims(c, db, step.r, w); }
      else if step.PasskeySignup? { PasskeySignupClaims(c, db, step, w); }
      else if step.PasskeyLogin? { PasskeyLoginClaims(db, step.key, step.user, step.signCount, step.presented, w); }
      else if step.Unlink? { UnlinkClaims(db, step.user, step.identity, w); }
      else if step.AddPasskey? { AddPasskeyClaims(db, step.newKey, w); }
      else if step.DeletePasskey? { DeletePasskeyClaims(db, step.user, step.key, w); }
      else if step.TakeUpInvite? { TakeAddsMember(db, step.token, step.user, w); }
    }
  }

  /** A remark on the order of writes. The rollback is what keeps a refused claim harmless: the body
      of a claiming login sets the flag first and can still be refused afterwards. */
  lemma RefusalFollowsTheClaimFlag(c: Config, db: Db, r: LoginRequest, w: World)
    requires !r.link && !db.bootstrapDone && (IsAdminClaim(c, r) || IsTokenClaim(c, db, r))
    requires r.provider != "" && r.subject != "" && r.email != "" && !r.emailVerified && r.org == "" && r.invite == ""
    requires forall i :: !HasIdentity(db.people, r.provider, r.subject, i)
    ensures Body(c, db, Resolve(r), w) == Out(SetBootstrapDone(db), Refused("email_unverified"))
    ensures Next(c, db, Resolve(r), w) == db
  {
    var db1 := SetBootstrapDone(db);
    assert forall i :: !HasIdentity(db1.people, r.provider, r.subject, i);
    assert !TrustedForEmail(r, w) && !ScimVouches(db1.people, r, w);
  }

  // ---- Sign-in methods ----------------------------------------------------------------------------

  ghost predicate HasMethod(p: People, passkeysOn: bool, u: Id) {
    (exists i :: i in p.identities && p.identities[i].user == u) ||
    (passkeysOn && exists k :: k in p.passkeys && p.passkeys[k].user == u)
  }

  lemma CountMeansHas(p: People, passkeysOn: bool, u: Id)
    ensures SignInMethods(p, passkeysOn, u) >= 1 <==> HasMethod(p, passkeysOn, u)
  {
    if i :| i in p.identities && p.identities[i].user == u { assert i in IdentitiesOf(p, u); }
    if k :| k in p.passkeys && p.passkeys[k].user == u { assert k in PasskeysOf(p, u); }
    if IdentitiesOf(p, u) != {} { var i :| i in IdentitiesOf(p, u); assert p.identities[i].user == u; }
    if PasskeysOf(p, u) != {} { var k :| k in PasskeysOf(p, u); assert p.passkeys[k].user == u; }
  }

  /** Every user outside strangers (users made elsewhere without one) has a sign-in method. */
  ghost predicate MethodsKept(p: People, passkeysOn: bool, strangers: set<Id>) {
    forall u :: u in p.users && u !in strangers ==> HasMethod(p, passkeysOn, u)
  }

  /** Rows of u that were there still are. */
  ghost predicate MethodsStay(p: People, q: People, u: Id) {
    (forall i :: i in p.identities && p.identities[i].user == u ==> i in q.identities && q.identities[i].user == u) &&
    (forall k :: k in p.passkeys && p.passkeys[k].user == u ==> k in q.passkeys && q.passkeys[k].user == u)
  }

  lemma StayMeansKept(p: People, q: People, passkeysOn: bool, u: Id)
    requires MethodsStay(p, q, u) && HasMethod(p, passkeysOn, u)
    ensures HasMethod(q, passkeysOn, u)
  {
  }

  /** What a step does to the sign-in methods of u: rows stay, and a user it creates has one. */
  ghost predicate MethodStep(db: Db, q: Db, w: World, u: Id) {
    q.passkeysOn == db.passkeysOn && MethodsStay(db.people, q.people, u) &&
    (u in q.people.users && u !in db.people.users ==> HasMethod(q.people, q.passkeysOn, u))
  }

  lemma IdentifyMethods(db: Db, r: LoginRequest, w: World, claim: bool, u: Id)
    requires Schema(db.people) && Identify(db, r, w, claim).Known?
    ensures MethodStep(db, Identify(db, r, w, claim).db, w, u)
  {
    if !exists i :: HasIdentity(db.people, r.provider, r.subject, i) {
      var d := DecideUnseen(db, r, w, claim);
      if d.SignUp? { SignUpMethods(db, r, w, claim, u, d); }
    }
  }

  lemma SignUpMethods(db: Db, r: LoginRequest, w: World, claim: bool, u: Id, d: Unseen)
    requires !exists i :: HasIdentity(db.people, r.provider, r.subject, i)
    requires d == DecideUnseen(db, r, w, claim) && d.SignUp? && Identify(db, r, w, claim).Known?
    ensures MethodStep(db, Identify(db, r, w, claim).db, w, u)
  {
    hide AcceptInvite, DecideUnseen;
    var p := AddUser(db.people, w.ids.user, User(d.email, false, true));
    var q := AddIdentity(p, w.ids.row, Identity(w.ids.user, r.provider, r.subject, r.email));
    assert Identify(db, r, w, claim).db.people == q;
    assert q.identities[w.ids.row].user == w.ids.user;
  }

  lemma LinkMethods(db: Db, r: LoginRequest, w: World, u: Id)
    requires LinkTx(db, r, w).res.Ok?
    ensures MethodStep(db, LinkTx(db, r, w).db, w, u)
  {
    hide HasMethod;
  }

  lemma ResolveMethods(c: Config, db: Db, r: LoginRequest, w: World, u: Id)
    requires Schema(db.people) && ResolveTx(c, db, r, w).res.Ok?
    ensures MethodStep(db, ResolveTx(c, db, r, w).db, w, u)
  {
    hide Identify, Provision, SignIn, LinkTx, HasMethod, MethodsStay, Schema;
    if r.link {
      LinkMethods(db, r, w, u);
    } else {
      ResolveShape(c, db, r, w);
      IdentifyMethods(if !db.bootstrapDone then SetBootstrapDone(db) else db, r, w, !db.bootstrapDone, u);
    }
  }

  lemma PasskeySignupMethods(c: Config, db: Db, step: Step, w: World, u: Id)
    requires step.PasskeySignup? && Body(c, db, step, w).res.Ok?
    ensures MethodStep(db, Body(c, db, step, w).db, w, u)
  {
    hide Body;
    PasskeySignupShape(c, db, step, w);
    var q, key := Body(c, db, step, w).db.people, step.newKey.(user := w.ids.user);
    var user :| q == AddKey(AddUser(db.people, w.ids.user, user), w.ids.row, key);
    assert q.passkeys[w.ids.row].user == w.ids.user;
  }

  lemma OtherMethods(c: Config, db: Db, step: Step, w: World, u: Id)
    requires Body(c, db, step, w).res.Ok? && !step.Resolve? && !step.PasskeySignup?
    requires !((step.Unlink? || step.DeletePasskey?) && step.user == u)
    ensures MethodStep(db, Body(c, db, step, w).db, w, u)
  {
    hide ResolveTx, PasskeySignupTx, HasMethod, SignInMethods, SignIn, AcceptInvite, CredentialTaken, PasskeysOf;
    if step.PasskeyLogin? {
      SignInFrames(db.(people := TouchKey(db.people, step.key, step.signCount)), step.user, false, false,
        PASSKEY_PROVIDER, step.presented, w);
    }
    assert Body(c, db, step, w).db.people.users == db.people.users;
  }

  /** Only unlink and passkey.delete take rows away, and only from the user who asked; a user a
      step creates comes with a row. */
  lemma StepMethods(c: Config, db: Db, step: Step, w: World, u: Id)
    requires Schema(db.people) && Body(c, db, step, w).res.Ok?
    requires !((step.Unlink? || step.DeletePasskey?) && step.user == u)
    ensures MethodStep(db, Next(c, db, step, w), w, u)
  {
    hide ResolveTx, PasskeySignupTx, PasskeyLoginTx, AddPasskeyTx, UnlinkTx, DeletePasskeyTx, MethodStep;
    if step.Resolve? {
      ResolveMethods(c, db, step.r, w, u);
    } else if step.PasskeySignup? {
      PasskeySignupMethods(c, db, step, w, u);
    } else {
      OtherMethods(c, db, step, w, u);
    }
  }

  lemma PasskeysFlagFixed(c: Config, db: Db, step: Step, w: World)
    requires Schema(db.people) && Body(c, db, step, w).res.Ok?
    ensures Next(c, db, step, w).passkeysOn == db.passkeysOn
  {
    if step.Unlink? || step.DeletePasskey? {
    } else {
      StepMethods(c, db, step, w, "");
    }
  }

  /** With passkeys_enabled fixed, no step of any kind leaves a user without a way to sign in,
      and every user it creates has one. */
  lemma StepKeepsMethods(c: Config, db: Db, step: Step, w: World, strangers: set<Id>)
    requires Schema(db.people) && strangers <= db.people.users.Keys
    requires MethodsKept(db.people, db.passkeysOn, strangers)
    ensures var q := Next(c, db, step, w);
            q.passkeysOn == db.passkeysOn && MethodsKept(q.people, q.passkeysOn, strangers) &&
              strangers <= q.people.users.Keys
  {
    hide Body, Sound, Schema, HasMethod;
    var q := Next(c, db, step, w);
    StepSound(c, db, step, w);
    SoundKeepsUsers(db.people, q.people);
    if Body(c, db, step, w).res.Ok? {
      forall u | u in q.people.users && u !in strangers ensures HasMethod(q.people, q.passkeysOn, u) {
        if (step.Unlink? || step.DeletePasskey?) && step.user == u {
          RemovalLeavesOne(c, db, step, w);
          CountMeansHas(q.people, q.passkeysOn, u);
        } else {
          StepMethods(c, db, step, w, u);
          if u in db.people.users { StayMeansKept(db.people, q.people, db.passkeysOn, u); }
        }
      }
      PasskeysFlagFixed(c, db, step, w);
    }
  }

  lemma SoundKeepsUsers(p: People, q: People)
    requires Sound(p, q)
    ensures p.users.Keys <= q.users.Keys
  {
  }

  /** The count taken after the removal, inside the transaction. */
  lemma RemovalLeavesOne(c: Config, db: Db, step: Step, w: World)
    requires (step.Unlink? || step.DeletePasskey?) && Body(c, db, step, w).res.Ok?
    ensures var q := Next(c, db, step, w); SignInMethods(q.people, q.passkeysOn, step.user) >= 1
  {
    hide SignInMethods;
  }

  /** Turning passkeys off keeps the guarantee exactly when everyone also has an identity. */
  lemma PasskeysOffNeedsIdentities(p: People, strangers: set<Id>)
    ensures MethodsKept(p, false, strangers) <==>
            forall u :: u in p.users && u !in strangers ==> IdentitiesOf(p, u) != {}
  {
    forall u | u in p.users && u !in strangers ensures HasMethod(p, false, u) <==> IdentitiesOf(p, u) != {} {
      CountMeansHas(p, false, u);
    }
  }

  // ---- The passkey limit ---------------------------------------------------------------------------

  ghost predicate WithinLimit(p: People) {
    forall u :: |PasskeysOf(p, u)| <= MAX_PASSKEYS
  }

  lemma AddKeyWithinLimit(p: People, k: Id, x: Passkey)
    requires WithinLimit(p) && k !in p.passkeys && |PasskeysOf(p, x.user)| < MAX_PASSKEYS
    ensures WithinLimit(AddKey(p, k, x))
  {
    var q := AddKey(p, k, x);
    forall u ensures |PasskeysOf(q, u)| <= MAX_PASSKEYS {
      var was := PasskeysOf(p, u);
      if x.user == u {
        assert PasskeysOf(q, u) == was + {k};
        assert |was + {k}| == |was| + 1;
      } else {
        assert PasskeysOf(q, u) == was;
      }
    }
  }

  lemma FewerWithinLimit(p: People, q: People)
    requires WithinLimit(p)
    requires forall k :: k in q.passkeys ==> k in p.passkeys && q.passkeys[k].user == p.passkeys[k].user
    ensures WithinLimit(q)
  {
    forall u ensures |PasskeysOf(q, u)| <= MAX_PASSKEYS {
      assert PasskeysOf(q, u) <= PasskeysOf(p, u);
      SubsetSize(PasskeysOf(q, u), PasskeysOf(p, u));
    }
  }

  lemma SubsetSize<T>(a: set<T>, b: set<T>)
    requires a <= b
    ensures |a| <= |b|
  {
    assert b == a + (b - a);
  }

  lemma PasskeySignupWithinLimit(c: Config, db: Db, step: Step, w: World)
    requires Schema(db.people) && WithinLimit(db.people) && step.PasskeySignup? && Body(c, db, step, w).res.Ok?
    ensures WithinLimit(Body(c, db, step, w).db.people)
  {
    hide Body, WithinLimit;
    var p, q, x := db.people, Body(c, db, step, w).db.people, step.newKey.(user := w.ids.user);
    PasskeySignupShape(c, db, step, w);
    var user :| q == AddKey(AddUser(p, w.ids.user, user), w.ids.row, x);
    var mid := AddUser(p, w.ids.user, user);
    assert PasskeysOf(mid, w.ids.user) == {};
    FewerWithinLimit(p, mid);
    AddKeyWithinLimit(mid, w.ids.row, x);
  }

  /** Nobody ever has more than MaxPasskeysPerUser passkeys. */
  lemma StepKeepsLimit(c: Config, db: Db, step: Step, w: World)
    requires Schema(db.people) && WithinLimit(db.people)
    ensures WithinLimit(Next(c, db, step, w).people)
  {
    hide ResolveTx, PasskeySignupTx, WithinLimit, Schema, PasskeysOf;
    if Body(c, db, step, w).res.Ok? {
      var p, q := db.people, Next(c, db, step, w).people;
      if step.PasskeySignup? {
        PasskeySignupWithinLimit(c, db, step, w);
      } else if step.AddPasskey? {
        AddKeyWithinLimit(p, w.ids.row, step.newKey);
      } else {
        OthersAddNoKeys(c, db, step, w);
        FewerWithinLimit(p, q);
      }
    }
  }

  lemma OthersAddNoKeys(c: Config, db: Db, step: Step, w: World)
    requires !step.PasskeySignup? && !step.AddPasskey? && Body(c, db, step, w).res.Ok?
    ensures var p, q := db.people.passkeys, Body(c, db, step, w).db.people.passkeys;
            forall k :: k in q ==> k in p && q[k].user == p[k].user
  {
    hide ResolveTx, SignIn, AcceptInvite, SignInMethods;
    if step.Resolve? { ResolveKeepsKeys(c, db, step.r, w); }
    if step.PasskeyLogin? {
      SignInFrames(db.(people := TouchKey(db.people, step.key, step.signCount)), step.user, false, false,
        PASSKEY_PROVIDER, step.presented, w);
    }
  }

  lemma IdentifyKeepsKeys(db: Db, r: LoginRequest, w: World, claim: bool)
    requires Identify(db, r, w, claim).Known?
    ensures Identify(db, r, w, claim).db.people.passkeys == db.people.passkeys
  {
    hide DecideUnseen;
    if !exists i :: HasIdentity(db.people, r.provider, r.subject, i) {
      AttachFrames(db, r, w, DecideUnseen(db, r, w, claim));
    }
  }

  lemma ResolveKeepsKeys(c: Config, db: Db, r: LoginRequest, w: World)
    requires ResolveTx(c, db, r, w).res.Ok?
    ensures ResolveTx(c, db, r, w).db.people.passkeys == db.people.passkeys
  {
    if !r.link {
      ResolveShape(c, db, r, w);
      IdentifyKeepsKeys(if !db.bootstrapDone then SetBootstrapDone(db) else db, r, w, !db.bootstrapDone);
    }
  }

  // ---- Who may gain what ------------------------------------------------------------------------------

  /** What makes the user of a login a platform member: the grant of an administrator's address or
      the bootstrap token, or signing up with an invite that names the platform organisation. */
  ghost predicate LoginJoins(c: Config, db: Db, r: LoginRequest, w: World) {
    !r.link &&
    (IsAdminClaim(c, r) || IsTokenClaim(c, db, r) ||
     (PlatformInvite(db, r.invite) && (forall i :: !HasIdentity(db.people, r.provider, r.subject, i)) &&
      DecideUnseen(db, r, w, !db.bootstrapDone).SignUp? && DecideUnseen(db, r, w, !db.bootstrapDone).via == "invite"))
  }

  /** The same for every step. */
  ghost predicate Joins(c: Config, db: Db, step: Step, w: World) {
    match step
    case Resolve(r) => LoginJoins(c, db, r, w)
    case PasskeySignup(_, invite, hash, _, _) => hash != "" || PlatformInvite(db, invite)
    case TakeUpInvite(_, token) => PlatformInvite(db, token)
    case _ => false
  }

  lemma IdentifyJoins(db: Db, r: LoginRequest, w: World, claim: bool)
    requires Identify(db, r, w, claim).Known?
    ensures var k := Identify(db, r, w, claim);
            var joins := PlatformInvite(db, r.invite) &&
              (forall i :: !HasIdentity(db.people, r.provider, r.subject, i)) &&
              DecideUnseen(db, r, w, claim).SignUp? && DecideUnseen(db, r, w, claim).via == "invite";
            PlatformMembers(k.db.members) == PlatformMembers(db.members) + if joins then {k.user} else {}
  {
    hide DecideUnseen;
    if !exists i :: HasIdentity(db.people, r.provider, r.subject, i) {
      AttachJoins(db, r, w, DecideUnseen(db, r, w, claim));
    }
  }

  lemma AttachJoins(db: Db, r: LoginRequest, w: World, d: Unseen)
    requires Attach(db, r, w, d).Known?
    ensures var k := Attach(db, r, w, d);
            PlatformMembers(k.db.members) ==
              PlatformMembers(db.members) + if PlatformInvite(db, r.invite) && d.SignUp? &&
                d.via == "invite" then {k.user} else {}
  {
    hide TakeInvite;
    if d.SignUp? && d.via == "invite" {
      var p := AddUser(db.people, w.ids.user, User(d.email, false, true));
      var q := AddIdentity(p, w.ids.row, Identity(w.ids.user, r.provider, r.subject, r.email));
      TakeAddsMember(db.(people := q), r.invite, w.ids.user, w);
    }
  }

  lemma SignInJoins(db: Db, u: Id, grant: bool, claim: bool, provider: Id, presented: string, w: World)
    requires SignIn(db, u, grant, claim, provider, presented, w).res.Ok?
    ensures var q := SignIn(db, u, grant, claim, provider, presented, w);
            q.res == Ok(u) && PlatformMembers(q.db.members) == PlatformMembers(db.members) + if grant then {u} else {}
  {
    if grant { EnsureAddsMember(db, u, w.ids.granted); }
  }

  lemma ResolveJoins(c: Config, db: Db, r: LoginRequest, w: World)
    requires ResolveTx(c, db, r, w).res.Ok?
    ensures var q := ResolveTx(c, db, r, w);
            PlatformMembers(q.db.members) == PlatformMembers(db.members) + if LoginJoins(c, db, r, w) then
              {q.res.user} else {}
  {
    hide Identify, Provision, SignIn, DecideUnseen;
    if !r.link {
      var claim, grant := !db.bootstrapDone, IsAdminClaim(c, r) || IsTokenClaim(c, db, r);
      var db1 := if claim then SetBootstrapDone(db) else db;
      var k := Identify(db1, r, w, claim);
      IdentifyEnds(db1, r, w, claim);
      var q := Provision(k.db, r, k.user, w);
      IdentifyJoins(db1, r, w, claim);
      ProvisionElsewhere(k.db, r, k.user, w);
      SignInJoins(q.value, k.user, grant, claim, r.provider, r.presented, w);
      DecisionIgnoresClaimFlag(db, r, w, claim);
    }
  }

  lemma DecisionIgnoresClaimFlag(db: Db, r: LoginRequest, w: World, claim: bool)
    ensures DecideUnseen(SetBootstrapDone(db), r, w, claim) == DecideUnseen(db, r, w, claim)
  {
  }

  lemma PasskeySignupJoins(c: Config, db: Db, step: Step, w: World)
    requires step.PasskeySignup? && Body(c, db, step, w).res.Ok?
    ensures var q := Body(c, db, step, w);
            PlatformMembers(q.db.members) == PlatformMembers(db.members) + if Joins(c, db, step, w) then {q.res.user}
              else {}
  {
    hide SignIn, TakeInvite, EmailTaken, CredentialTaken, AddKey, AddUser, PlatformMembers;
    var claim := step.bootstrapHash != "";
    var user := if claim then User(step.email, false, false) else User(db.invites[step.invite].email, false, true);
    var db1 := WithPasskeyUser(if claim then SetBootstrapDone(db) else db, user, claim, step.newKey, w);
    if claim {
      SignInJoins(db1, w.ids.user, true, true, PASSKEY_PROVIDER, step.presented, w);
    } else {
      TakeAddsMember(db1, step.invite, w.ids.user, w);
      SignInJoins(TakeInvite(db1, step.invite, w.ids.user, w).value, w.ids.user, false, false, PASSKEY_PROVIDER,
        step.presented, w);
    }
  }

  /** Who becomes a platform member, exactly: over every step that commits, its own user, if the
      step is a login or sign-up with the grant, or takes up a pending invite that names the platform
      organisation; nobody else ever, and nobody ceases to be one. A refused step adds nobody. */
  lemma PlatformMembersExactly(c: Config, db: Db, step: Step, w: World)
    ensures var out := Body(c, db, step, w);
            PlatformMembers(Next(c, db, step, w).members) ==
              PlatformMembers(db.members) + if out.res.Ok? && Joins(c, db, step, w) then {out.res.user} else {}
  {
    hide ResolveTx, PasskeySignupTx, LoginJoins;
    if Body(c, db, step, w).res.Ok? {
      match step
      case Resolve(r) => ResolveJoins(c, db, r, w);
      case PasskeySignup(_, _, _, _, _) => PasskeySignupJoins(c, db, step, w);
      case TakeUpInvite(user, token) => TakeAddsMember(db, token, user, w);
      case PasskeyLogin(key, user, n, presented) =>
        SignInJoins(db.(people := TouchKey(db.people, key, n)), user, false, false, PASSKEY_PROVIDER, presented, w);
      case _ =>
    }
  }

  lemma IdentifyKeepsUnique(db: Db, r: LoginRequest, w: World, claim: bool)
    requires UniqueRows(db.members) && Identify(db, r, w, claim).Known?
    ensures UniqueRows(Identify(db, r, w, claim).db.members)
    ensures FreshDraws(db, w) ==> GroupSync.NewIds(w.ids.synced, Identify(db, r, w, claim).db.members)
  {
    hide DecideUnseen, UniqueRows;
    if !exists i :: HasIdentity(db.people, r.provider, r.subject, i) {
      var d := DecideUnseen(db, r, w, claim);
      if d.SignUp? && d.via == "invite" {
        var p := AddUser(db.people, w.ids.user, User(d.email, false, true));
        var q := AddIdentity(p, w.ids.row, Identity(w.ids.user, r.provider, r.subject, r.email));
        TakeAddsMember(db.(people := q), r.invite, w.ids.user, w);
      }
    }
  }

  lemma ResolveKeepsUnique(c: Config, db: Db, r: LoginRequest, w: World)
    requires UniqueRows(db.members) && ResolveTx(c, db, r, w).res.Ok?
    ensures UniqueRows(ResolveTx(c, db, r, w).db.members)
  {
    hide UniqueRows, Identify, Provision, EnsurePlatformMember;
    if !r.link {
      var db1 := if !db.bootstrapDone then SetBootstrapDone(db) else db;
      var k := Identify(db1, r, w, !db.bootstrapDone);
      IdentifyEnds(db1, r, w, !db.bootstrapDone);
      IdentifyKeepsUnique(db1, r, w, !db.bootstrapDone);
      ProvisionElsewhere(k.db, r, k.user, w);
      var q := Provision(k.db, r, k.user, w).value;
      if IsAdminClaim(c, r) || IsTokenClaim(c, db, r) { EnsureAddsMember(q, k.user, w.ids.granted); }
    }
  }

  lemma PasskeySignupKeepsUnique(c: Config, db: Db, step: Step, w: World)
    requires UniqueRows(db.members) && step.PasskeySignup? && Body(c, db, step, w).res.Ok?
    ensures UniqueRows(Body(c, db, step, w).db.members)
  {
    hide UniqueRows, TakeInvite, EnsurePlatformMember;
    var claim := step.bootstrapHash != "";
    var user := if claim then User(step.email, false, false) else User(db.invites[step.invite].email, false, true);
    var db1 := WithPasskeyUser(if claim then SetBootstrapDone(db) else db, user, claim, step.newKey, w);
    if claim {
      EnsureAddsMember(db1, w.ids.user, w.ids.granted);
    } else {
      TakeAddsMember(db1, step.invite, w.ids.user, w);
    }
  }

  /** One membership per user and resource, over every step. */
  lemma StepKeepsMembersUnique(c: Config, db: Db, step: Step, w: World)
    requires UniqueRows(db.members)
    ensures UniqueRows(Next(c, db, step, w).members)
  {
    hide UniqueRows, ResolveTx, PasskeySignupTx;
    if Body(c, db, step, w).res.Ok? {
      match step
      case Resolve(r) => ResolveKeepsUnique(c, db, r, w);
      case PasskeySignup(_, _, _, _, _) => PasskeySignupKeepsUnique(c, db, step, w);
      case TakeUpInvite(user, token) => TakeAddsMember(db, token, user, w);
      case _ =>
    }
  }

  /** A platform member made by invite: an unseen identity, asserted by an organisation's own
      provider, with no administrator's address and no token, on a platform long claimed. */
  lemma InviteMakesPlatformMember(c: Config, w: World)
    requires !w.fails && w.now < 10 && w.orgs.scimUser.None? && w.orgs.sso.None?
    ensures var inv := Invitation("m@x", PLATFORM_ORG, OrgKey(PLATFORM_ORG), None, 10, false);
            var db := Db(People(map[], map[], map[]), map[], map[], map["t" := inv], true, "", false, []);
            var r := LoginRequest("p", "s", "m@x", false, "org", false, false, Absent, "", false, "", "t", "");
            !IsAdminClaim(c, r) && !IsTokenClaim(c, db, r) &&
            PlatformMembers(Next(c, db, Resolve(r), w).members) == {w.ids.user}
  {
    var inv := Invitation("m@x", PLATFORM_ORG, OrgKey(PLATFORM_ORG), None, 10, false);
    var db := Db(People(map[], map[], map[]), map[], map[], map["t" := inv], true, "", false, []);
    var r := LoginRequest("p", "s", "m@x", false, "org", false, false, Absent, "", false, "", "t", "");
    assert PendingInvite(db.invites, "t", w.now);
    assert DecideUnseen(db, r, w, false) == SignUp("invite", "m@x");
    assert PlatformInvite(db, "t") && Joins(c, db, Resolve(r), w);
    FirstSignUp(c, db, r, w);
    PlatformMembersExactly(c, db, Resolve(r), w);
  }

  /** On empty tables such a sign-up succeeds. */
  lemma FirstSignUp(c: Config, db: Db, r: LoginRequest, w: World)
    requires db.people == People(map[], map[], map[]) && db.members == map[] && db.sessions == map[] && db.bootstrapDone
    requires !r.link && r.provider != "" && r.subject != "" && r.invite == "t" &&
             PendingInvite(db.invites, r.invite, w.now)
    requires !w.fails && w.orgs.sso.None? && !IsAdminClaim(c, r)
    requires DecideUnseen(db, r, w, false) == SignUp("invite", "m@x")
    ensures Body(c, db, Resolve(r), w).res == Ok(w.ids.user)
  {
    hide DecideUnseen;
    var p := AddUser(db.people, w.ids.user, User("m@x", false, true));
    assert CanLink(p, w.ids.row, Identity(w.ids.user, r.provider, r.subject, r.email));
    assert TakeInvite(db.(people := AddIdentity(p, w.ids.row, Identity(w.ids.user, r.provider, r.subject, r.email))),
      r.invite, w.ids.user, w).Some?;
  }

  /** What lets a login attach an identity to an account that was there before: the account's own
      live session, a verified address on a provider trusted for it, or SCIM provisioning. */
  ghost predicate MayAttach(db: Db, r: LoginRequest, w: World, u: Id) {
    if r.link then r.presented == r.linkSession && LiveSession(db, r.linkSession, w.now) &&
      db.sessions[r.linkSession].user == u
    else
      u in db.people.users && !db.people.users[u].deleted && u != FORMER_MEMBER &&
      ((TrustedForEmail(r, w) && db.people.users[u].email == r.email && db.people.users[u].emailVerified) ||
       (ScimVouches(db.people, r, w) && w.orgs.scimUser == Some(u)))
  }

  lemma UnseenMayAttach(db: Db, r: LoginRequest, w: World, claim: bool)
    requires DecideUnseen(db, r, w, claim).LinkTo? && !r.link
    ensures MayAttach(db, r, w, DecideUnseen(db, r, w, claim).user)
  {
  }

  /** No sign-in attaches an identity to somebody's existing account without such proof. */
  lemma AttachNeedsProof(c: Config, db: Db, step: Step, w: World, i: Id)
    requires i in Next(c, db, step, w).people.identities && i !in db.people.identities
    requires Next(c, db, step, w).people.identities[i].user in db.people.users
    ensures step.Resolve? && MayAttach(db, step.r, w, Next(c, db, step, w).people.identities[i].user)
  {
    hide ResolveTx, MayAttach;
    if step.Resolve? {
      AttachedByResolve(c, db, step.r, w, i);
    } else {
      OthersAttachNothing(c, db, step, w);
    }
  }

  lemma OthersAttachNothing(c: Config, db: Db, step: Step, w: World)
    requires !step.Resolve?
    ensures Next(c, db, step, w).people.identities.Keys <= db.people.identities.Keys
  {
    hide ResolveTx, NewPasskeyUser, SignIn, AcceptInvite, SignInMethods, PasskeysOf, CredentialTaken;
    if step.PasskeySignup? && Body(c, db, step, w).res.Ok? {
      PasskeySignupShape(c, db, step, w);
    }
    if step.PasskeyLogin? && Body(c, db, step, w).res.Ok? {
      SignInFrames(db.(people := TouchKey(db.people, step.key, step.signCount)), step.user, false, false,
        PASSKEY_PROVIDER, step.presented, w);
    }
  }

  /** The one new identity belongs to the user linked to, or to the new user. */
  lemma AttachAddsOne(db: Db, r: LoginRequest, w: World, d: Unseen)
    requires Attach(db, r, w, d).Known?
    ensures var q := Attach(db, r, w, d).db.people.identities;
            !d.Deny? && (d.SignUp? ==> w.ids.user !in db.people.users) &&
            forall i :: i in q && i !in db.people.identities ==> q[i].user == if d.LinkTo? then d.user else w.ids.user
  {
    hide AcceptInvite, CanLink;
  }

  lemma AttachedByIdentify(db: Db, r: LoginRequest, w: World, claim: bool, i: Id)
    requires !r.link && Identify(db, r, w, claim).Known?
    requires i in Identify(db, r, w, claim).db.people.identities && i !in db.people.identities
    requires Identify(db, r, w, claim).db.people.identities[i].user in db.people.users
    ensures MayAttach(db, r, w, Identify(db, r, w, claim).db.people.identities[i].user)
  {
    hide DecideUnseen, MayAttach, Attach;
    if !exists j :: HasIdentity(db.people, r.provider, r.subject, j) {
      AttachAddsOne(db, r, w, DecideUnseen(db, r, w, claim));
    }
    if DecideUnseen(db, r, w, claim).LinkTo? { UnseenMayAttach(db, r, w, claim); }
  }

  lemma AttachedByLink(db: Db, r: LoginRequest, w: World, i: Id)
    requires r.link && LinkTx(db, r, w).res.Ok?
    requires i in LinkTx(db, r, w).db.people.identities && i !in db.people.identities
    ensures MayAttach(db, r, w, LinkTx(db, r, w).db.people.identities[i].user)
  {
    hide CanLink;
  }

  lemma MayAttachIgnoresClaimFlag(db: Db, r: LoginRequest, w: World)
    ensures forall u :: MayAttach(SetBootstrapDone(db), r, w, u) == MayAttach(db, r, w, u)
  {
  }

  lemma AttachedByResolve(c: Config, db: Db, r: LoginRequest, w: World, i: Id)
    requires ResolveTx(c, db, r, w).res.Ok?
    requires i in ResolveTx(c, db, r, w).db.people.identities && i !in db.people.identities
    requires ResolveTx(c, db, r, w).db.people.identities[i].user in db.people.users
    ensures MayAttach(db, r, w, ResolveTx(c, db, r, w).db.people.identities[i].user)
  {
    hide Identify, MayAttach, Provision, SignIn;
    if r.link {
      AttachedByLink(db, r, w, i);
    } else {
      ResolveShape(c, db, r, w);
      MayAttachIgnoresClaimFlag(db, r, w);
      AttachedByIdentify(if !db.bootstrapDone then SetBootstrapDone(db) else db, r, w, !db.bootstrapDone, i);
    }
  }

  // ---- What a sign-in leaves ---------------------------------------------------------------------------

  /** The new session is there, the presented one is gone, and every other is as it was. */
  ghost predicate Rotated(a: map<string, Session>, b: map<string, Session>, token: string, presented: string,
    s: Session)
  {
    token !in a && token in b && b[token] == s && (presented !in {"", token} ==> presented !in b) &&
    forall t :: t != token && (t != presented || t == "") ==> (t in b <==> t in a) && (t in a ==> b[t] == a[t])
  }

  lemma SignInRotates(db: Db, u: Id, grant: bool, claim: bool, provider: Id, presented: string, w: World)
    requires SignIn(db, u, grant, claim, provider, presented, w).res.Ok?
    ensures var q := SignIn(db, u, grant, claim, provider, presented, w);
            q.res == Ok(u) && Rotated(db.sessions, q.db.sessions, w.ids.token, presented,
              Session(u, provider, w.expires)) &&
            q.db.audit != [] && q.db.audit[|q.db.audit| - 1] == LoggedIn(u, provider)
  {
    hide Belongs, InsertRow;
  }

  /** A user known by the end of step 4 exists and is not deleted. */
  lemma KnownIsLive(db: Db, r: LoginRequest, w: World, claim: bool)
    requires Identify(db, r, w, claim).Known?
    ensures var k := Identify(db, r, w, claim); k.user in k.db.people.users && !k.db.people.users[k.user].deleted
  {
    hide DecideUnseen, AcceptInvite, CanLink;
    if !exists i :: HasIdentity(db.people, r.provider, r.subject, i) {
      var d := DecideUnseen(db, r, w, claim);
      if d.LinkTo? { LinkedIsLive(db, r, w, claim); }
    }
  }

  lemma LinkedIsLive(db: Db, r: LoginRequest, w: World, claim: bool)
    requires DecideUnseen(db, r, w, claim).LinkTo?
    ensures var u := DecideUnseen(db, r, w, claim).user; u in db.people.users && !db.people.users[u].deleted
  {
  }

  predicate IsLogin(step: Step) { (step.Resolve? && !step.r.link) || step.PasskeyLogin? || step.PasskeySignup? }

  function LoginProvider(step: Step): Id { if step.Resolve? then step.r.provider else "passkey" }

  function Presented(step: Step): string
    requires IsLogin(step)
  {
    if step.Resolve? then step.r.presented else step.presented
  }

  ghost predicate OpensSession(db: Db, out: Out, step: Step, w: World)
    requires IsLogin(step)
  {
    out.res.Ok? ==>
      var u := out.res.user;
      u in out.db.people.users && !out.db.people.users[u].deleted &&
      Rotated(db.sessions, out.db.sessions, w.ids.token, Presented(step), Session(u, LoginProvider(step), w.expires)) &&
      out.db.audit != [] && out.db.audit[|out.db.audit| - 1] == LoggedIn(u, LoginProvider(step))
  }

  lemma ResolveOpensSession(c: Config, db: Db, r: LoginRequest, w: World)
    requires !r.link
    ensures OpensSession(db, ResolveTx(c, db, r, w), Resolve(r), w)
  {
    hide Identify, Provision, SignIn, Rotated, Claimants, PlatformMembers;
    if ResolveTx(c, db, r, w).res.Ok? {
      var claim, grant := !db.bootstrapDone, IsAdminClaim(c, r) || IsTokenClaim(c, db, r);
      var db1 := if claim then SetBootstrapDone(db) else db;
      IdentifyEnds(db1, r, w, claim);
      var k := Identify(db1, r, w, claim);
      KnownIsLive(db1, r, w, claim);
      IdentifyKeepsClaim(db1, r, w, claim);
      ProvisionElsewhere(k.db, r, k.user, w);
      var q := Provision(k.db, r, k.user, w).value;
      SignInRotates(q, k.user, grant, claim, r.provider, r.presented, w);
      SignInFrames(q, k.user, grant, claim, r.provider, r.presented, w);
    }
  }

  lemma PasskeySignupOpensSession(c: Config, db: Db, step: Step, w: World)
    requires step.PasskeySignup?
    ensures OpensSession(db, Body(c, db, step, w), step, w)
  {
    hide SignIn, TakeInvite, EmailTaken, CredentialTaken, Rotated;
    if Body(c, db, step, w).res.Ok? {
      var claim := step.bootstrapHash != "";
      var user := if claim then User(step.email, false, false) else User(db.invites[step.invite].email, false, true);
      var db1 := WithPasskeyUser(if claim then SetBootstrapDone(db) else db, user, claim, step.newKey, w);
      if !claim { TakeAddsMember(db1, step.invite, w.ids.user, w); }
      var db2 := if claim then db1 else TakeInvite(db1, step.invite, w.ids.user, w).value;
      SignInRotates(db2, w.ids.user, claim, claim, PASSKEY_PROVIDER, step.presented, w);
      SignInFrames(db2, w.ids.user, claim, claim, PASSKEY_PROVIDER, step.presented, w);
    }
  }

  lemma PasskeyLoginOpensSession(c: Config, db: Db, step: Step, w: World)
    requires step.PasskeyLogin?
    ensures OpensSession(db, Body(c, db, step, w), step, w)
  {
    hide SignIn, Rotated;
    if Body(c, db, step, w).res.Ok? {
      var db1 := db.(people := TouchKey(db.people, step.key, step.signCount));
      SignInRotates(db1, step.user, false, false, PASSKEY_PROVIDER, step.presented, w);
      SignInFrames(db1, step.user, false, false, PASSKEY_PROVIDER, step.presented, w);
    }
  }

  /** Whose session a sign-in opens: every login, passkey login and passkey sign-up that commits for u
      leaves a live user u, one new session of u's at that provider, none under the token that was
      presented, and every other session as it was. */
  lemma LoginOpensOwnSession(c: Config, db: Db, step: Step, w: World)
    requires IsLogin(step) && Body(c, db, step, w).res.Ok?
    ensures var u, q := Body(c, db, step, w).res.user, Next(c, db, step, w);
            u in q.people.users && !q.people.users[u].deleted &&
            Rotated(db.sessions, q.sessions, w.ids.token, Presented(step),
              Session(u, LoginProvider(step), w.expires)) &&
            q.audit != [] && q.audit[|q.audit| - 1] == LoggedIn(u, LoginProvider(step))
  {
    hide ResolveTx, PasskeySignupTx, PasskeyLoginTx, Rotated;
    if step.Resolve? {
      ResolveOpensSession(c, db, step.r, w);
    } else if step.PasskeySignup? {
      PasskeySignupOpensSession(c, db, step, w);
    } else {
      PasskeyLoginOpensSession(c, db, step, w);
    }
  }

  /** Sessions that end without a new one: those of a provider when it is unlinked, and those dropped
      by name. No other step touches any. */
  lemma OthersOpenNoSession(c: Config, db: Db, step: Step, w: World, t: string)
    requires !IsLogin(step)
    ensures var q := Next(c, db, step, w).sessions;
            var ends := Body(c, db, step, w).res.Ok? && t in db.sessions &&
              ((step.DropSessions? && t in step.gone) ||
               (step.Unlink? && step.identity in db.people.identities && db.sessions[t].user == step.user &&
                db.sessions[t].provider == db.people.identities[step.identity].provider));
            (t in q <==> t in db.sessions && !ends) && (t in q ==> q[t] == db.sessions[t])
  {
    hide SignInMethods, PasskeysOf, CanLink, HasProvider, AcceptInvite, CredentialTaken, NewPasskeyUser, SignIn,
      LiveSession, HasIdentity;
  }

  /** What a login writes to the account tables: one identity row, which says that this subject of
      this provider is u and was last seen with this address; and u itself if u is new. */
  ghost predicate WritesIdentity(p: People, q: People, r: LoginRequest, u: Id, i: Id) {
    (if i in p.identities then HasIdentity(p, r.provider, r.subject, i) && p.identities[i].user == u
     else forall j :: !HasIdentity(p, r.provider, r.subject, j)) &&
    q.identities == p.identities[i := Identity(u, r.provider, r.subject, r.email)] && q.passkeys == p.passkeys &&
    if u in p.users then q.users == p.users
    else u in q.users && q.users == p.users[u := User(q.users[u].email, false, true)]
  }

  lemma AttachWrites(db: Db, r: LoginRequest, w: World, d: Unseen)
    requires (forall j :: !HasIdentity(db.people, r.provider, r.subject, j)) && Attach(db, r, w, d).Known?
    ensures WritesIdentity(db.people, Attach(db, r, w, d).db.people, r, Attach(db, r, w, d).user, w.ids.row)
  {
    hide AcceptInvite;
  }

  lemma IdentifyWrites(db: Db, r: LoginRequest, w: World, claim: bool) returns (i: Id)
    requires Identify(db, r, w, claim).Known? && Schema(db.people)
    ensures WritesIdentity(db.people, Identify(db, r, w, claim).db.people, r, Identify(db, r, w, claim).user, i)
  {
    hide Attach, DecideUnseen, Schema;
    if j :| HasIdentity(db.people, r.provider, r.subject, j) {
      IdentifyHit(db, r, w, claim, j);
      i := j;
    } else {
      AttachWrites(db, r, w, DecideUnseen(db, r, w, claim));
      i := w.ids.row;
    }
  }

  lemma LoginWritesIdentity(c: Config, db: Db, r: LoginRequest, w: World) returns (i: Id)
    requires Schema(db.people) && !r.link && Body(c, db, Resolve(r), w).res.Ok?
    ensures WritesIdentity(db.people, Next(c, db, Resolve(r), w).people, r, Body(c, db, Resolve(r), w).res.user, i)
  {
    hide Identify, Provision, SignIn, WritesIdentity, Schema;
    var claim := !db.bootstrapDone;
    var db1 := if claim then SetBootstrapDone(db) else db;
    ResolveShape(c, db, r, w);
    i := IdentifyWrites(db1, r, w, claim);
    var k := Identify(db1, r, w, claim);
    SignInJoins(Provision(k.db, r, k.user, w).value, k.user, IsAdminClaim(c, r) || IsTokenClaim(c, db, r), claim,
      r.provider, r.presented, w);
  }

  // ---- Who may sign up, and what claims the platform -----------------------------------------------------

  /** The address an account would get, and what would let a stranger have one: a pending invite, the
      claim by a verified address, just-in-time joining of the organisation that verified the address,
      or a platform provider open to sign-ups of verified addresses. */
  function SignUpAddress(db: Db, r: LoginRequest, w: World): string {
    if PendingInvite(db.invites, r.invite, w.now) then db.invites[r.invite].email else r.email
  }

  predicate MaySignUp(db: Db, r: LoginRequest, w: World, claim: bool) {
    (r.invite != "" && r.invite in db.invites && !db.invites[r.invite].accepted &&
      w.now < db.invites[r.invite].expires) ||
    (r.email != "" && r.emailVerified && (claim || (r.allowSignup && r.org == ""))) ||
    (r.email != "" && w.orgs.verifiedOrg == r.org && JitRole(w.orgs.cat, w.orgs.jit, r.org).Some?)
  }

  /** May the asserted address be matched to accounts at all, and is the one it names usable? */
  predicate MayMatch(r: LoginRequest, w: World) {
    r.email != "" && r.emailVerified && r.trustEmail && (r.org == "" || w.orgs.verifiedOrg == r.org)
  }

  /** An unseen identity ends exactly so: linked to the account of its trusted, verified address or to
      the one SCIM provisioned; or signed up, where allowed and the address is free; or refused. */
  lemma UnseenEnds(db: Db, r: LoginRequest, w: World, claim: bool)
    requires Schema(db.people)
    ensures var p, d := db.people, DecideUnseen(db, r, w, claim);
            (forall u :: d == LinkTo(u) <==>
              u in p.users && !p.users[u].deleted && u != FORMER_MEMBER &&
              if MayMatch(r, w) then p.users[u].email == r.email && p.users[u].emailVerified
              else r.org != "" && r.email != "" && w.orgs.verifiedOrg == r.org && w.orgs.scimUser == Some(u)) &&
            (d.SignUp? <==>
              !d.LinkTo? && MaySignUp(db, r, w, claim) && !EmailTaken(p, SignUpAddress(db, r, w)) &&
              (MayMatch(r, w) ==> !exists u :: u in p.users && p.users[u].email == r.email &&
                                    (p.users[u].deleted || u == FORMER_MEMBER))) &&
            (d.SignUp? ==>
              d.email == SignUpAddress(db, r, w) &&
              (d.via == "invite" <==> PendingInvite(db.invites, r.invite, w.now)))
  {
    hide Schema, JitRole;
    forall u | u in db.people.users ensures EmailTaken(db.people, db.people.users[u].email) &&
      UserByEmail(db.people, db.people.users[u].email) == u
    {
      EmailIsUnique(db.people, u);
    }
    JitNeedsOrg(w.orgs.cat, w.orgs.jit, r.org);
  }

  lemma JitNeedsOrg(cat: Catalog, jit: map<Id, JitSettings>, org: Id)
    ensures JitRole(cat, jit, org).Some? ==> org != ""
  {
  }

  /** Is this the hash of the configured bootstrap token, or of the one generated when none is? */
  predicate TokenMatches(c: Config, db: Db, hash: string) {
    c.hasBootstrap && hash != "" && hash == if c.envHash != "" then c.envHash else db.tokenHash
  }

  /** An unclaimed platform is claimed by a sign-in with a verified administrator's address from a
      platform provider, or with the bootstrap token, and by nothing else; nobody else gets in before. */
  lemma ClaimNeedsProof(c: Config, db: Db, step: Step, w: World)
    requires !db.bootstrapDone
    ensures var q := Next(c, db, step, w);
            var proof := (step.Resolve? && !step.r.link &&
                ((step.r.emailVerified && step.r.org == "" && c.isAdminEmail(step.r.email)) ||
                 TokenMatches(c, db, step.r.bootstrapHash))) ||
              (step.PasskeySignup? && TokenMatches(c, db, step.bootstrapHash));
            (q.bootstrapDone <==> IsLogin(step) && Body(c, db, step, w).res.Ok?) && (q.bootstrapDone ==> proof) &&
            (q.bootstrapDone ==> q.tokenHash == "")
  {
    hide Identify, Provision, SignIn, NewPasskeyUser, LinkTx, SignInMethods, PasskeysOf, AcceptInvite, CredentialTaken;
    if Body(c, db, step, w).res.Ok? {
      if step.Resolve? {
        if step.r.link { LinkKeepsFlag(db, step.r, w); } else { LoginSetsFlag(c, db, step.r, w); }
      } else if step.PasskeySignup? {
        PasskeySignupSetsFlag(db, step, w);
      }
    }
  }

  lemma LinkKeepsFlag(db: Db, r: LoginRequest, w: World)
    ensures LinkTx(db, r, w).db.bootstrapDone == db.bootstrapDone
  {
    hide CanLink, HasProvider;
  }

  lemma SignInKeepsFlag(db: Db, u: Id, grant: bool, claim: bool, provider: Id, presented: string, w: World)
    ensures var q := SignIn(db, u, grant, claim, provider, presented, w).db;
            q.bootstrapDone == db.bootstrapDone && q.tokenHash == db.tokenHash && q.invites == db.invites
  {
    hide Belongs, InsertRow;
  }

  lemma LoginSetsFlag(c: Config, db: Db, r: LoginRequest, w: World)
    requires !r.link && !db.bootstrapDone && ResolveTx(c, db, r, w).res.Ok?
    ensures ResolveTx(c, db, r, w).db.bootstrapDone && ResolveTx(c, db, r, w).db.tokenHash == ""
  {
    hide Identify, Provision, SignIn, Claimants, PlatformMembers;
    var grant, db1 := IsAdminClaim(c, r) || IsTokenClaim(c, db, r), SetBootstrapDone(db);
    IdentifyEnds(db1, r, w, true);
    var k := Identify(db1, r, w, true);
    IdentifyKeepsClaim(db1, r, w, true);
    ProvisionElsewhere(k.db, r, k.user, w);
    SignInKeepsFlag(Provision(k.db, r, k.user, w).value, k.user, grant, true, r.provider, r.presented, w);
  }

  lemma PasskeySignupSetsFlag(db: Db, step: Step, w: World)
    requires step.PasskeySignup?
    ensures var out := NewPasskeyUser(SetBootstrapDone(db), User(step.email, false, false), true, "", step.newKey,
                                      step.presented, w);
            out.db.bootstrapDone && out.db.tokenHash == ""
  {
    hide SignIn, EmailTaken, CredentialTaken;
    SignInKeepsFlag(WithPasskeyUser(SetBootstrapDone(db), User(step.email, false, false), true, step.newKey, w),
      w.ids.user, true, true, PASSKEY_PROVIDER, step.presented, w);
  }

  /** Every account a step makes had such a ground, and gets the address it names. */
  lemma NewUsersAreAllowed(c: Config, db: Db, step: Step, w: World, u: Id)
    requires Schema(db.people) && u in Next(c, db, step, w).people.users && u !in db.people.users
    ensures Body(c, db, step, w).res == Ok(u) && u == w.ids.user
    ensures var x := Next(c, db, step, w).people.users[u];
            match step {
              case Resolve(r) => !r.link && MaySignUp(db, r, w, !db.bootstrapDone) &&
                x == User(SignUpAddress(db, r, w), false, true)
              case PasskeySignup(email, invite, hash, _, _) => db.passkeysOn &&
                if hash != "" then !db.bootstrapDone && TokenMatches(c, db, hash) && x == User(email, false, false)
                else db.bootstrapDone && invite in db.invites && !db.invites[invite].accepted &&
                     w.now < db.invites[invite].expires && x == User(db.invites[invite].email, false, true)
              case _ => false
            }
  {
    hide ResolveTx, NewPasskeyUser, MaySignUp, Schema, MethodStep, HasMethod, SignIn, SignInMethods, PasskeysOf,
      CredentialTaken, AcceptInvite;
    if step.Resolve? {
      NewUserOfResolve(c, db, step.r, w, u);
    } else if step.PasskeySignup? {
      NewUserOfPasskey(c, db, step, w);
    } else {
      OthersAddNoUsers(c, db, step, w);
    }
  }

  lemma OthersAddNoUsers(c: Config, db: Db, step: Step, w: World)
    requires !step.Resolve? && !step.PasskeySignup?
    ensures Next(c, db, step, w).people.users == db.people.users
  {
    hide SignIn, SignInMethods, PasskeysOf, CredentialTaken, AcceptInvite;
    if step.PasskeyLogin? && Body(c, db, step, w).res.Ok? {
      SignInFrames(db.(people := TouchKey(db.people, step.key, step.signCount)), step.user, false, false,
        PASSKEY_PROVIDER, step.presented, w);
    }
  }

  lemma NewUserOfPasskey(c: Config, db: Db, step: Step, w: World)
    requires step.PasskeySignup? && Body(c, db, step, w).res.Ok?
    ensures Body(c, db, step, w).res == Ok(w.ids.user)
    ensures var user := if step.bootstrapHash != "" then User(step.email, false, false)
                        else User(db.invites[step.invite].email, false, true);
            Next(c, db, step, w).people.users == db.people.users[w.ids.user := user]
  {
    hide SignIn, AcceptInvite, EmailTaken, CredentialTaken;
    var claim := step.bootstrapHash != "";
    var user := if claim then User(step.email, false, false) else User(db.invites[step.invite].email, false, true);
    var db0 := if claim then SetBootstrapDone(db) else db;
    NewPasskeyUserShape(db0, user, claim, if claim then "" else step.invite, step.newKey, step.presented, w);
    var db1 := WithPasskeyUser(db0, user, claim, step.newKey, w);
    var db2 := if claim then db1 else TakeInvite(db1, step.invite, w.ids.user, w).value;
    SignInJoins(db2, w.ids.user, claim, claim, PASSKEY_PROVIDER, step.presented, w);
  }

  /** The user a login makes is the one decided on. */
  lemma AttachMakes(db: Db, r: LoginRequest, w: World, d: Unseen, u: Id)
    requires Attach(db, r, w, d).Known? && u in Attach(db, r, w, d).db.people.users && u !in db.people.users
    ensures d.SignUp? && u == w.ids.user && Attach(db, r, w, d).user == u
    ensures Attach(db, r, w, d).db.people.users[u] == User(d.email, false, true)
  {
    hide CanLink, AcceptInvite;
  }

  lemma NewUserOfResolve(c: Config, db: Db, r: LoginRequest, w: World, u: Id)
    requires Schema(db.people) && Body(c, db, Resolve(r), w).res.Ok?
    requires u in Next(c, db, Resolve(r), w).people.users && u !in db.people.users
    ensures Body(c, db, Resolve(r), w).res == Ok(u) && u == w.ids.user && !r.link
    ensures MaySignUp(db, r, w, !db.bootstrapDone)
    ensures Next(c, db, Resolve(r), w).people.users[u] == User(SignUpAddress(db, r, w), false, true)
    ensures forall i :: !HasIdentity(db.people, r.provider, r.subject, i)
    ensures DecideUnseen(db, r, w, !db.bootstrapDone).SignUp?
  {
    hide Identify, Provision, SignIn, MaySignUp, Attach, DecideUnseen, Schema, CanLink, HasProvider;
    if !r.link {
      var claim := !db.bootstrapDone;
      var db1 := if claim then SetBootstrapDone(db) else db;
      ResolveShape(c, db, r, w);
      var k := Identify(db1, r, w, claim);
      SignInJoins(Provision(k.db, r, k.user, w).value, k.user, IsAdminClaim(c, r) || IsTokenClaim(c, db, r), claim,
        r.provider, r.presented, w);
      IdentifyMakes(db1, r, w, claim, u);
      DecisionIgnoresClaimFlag(db, r, w, claim);
      UnseenEnds(db, r, w, claim);
    }
  }

  lemma IdentifyMakes(db: Db, r: LoginRequest, w: World, claim: bool, u: Id)
    requires Schema(db.people) && Identify(db, r, w, claim).Known?
    requires u in Identify(db, r, w, claim).db.people.users && u !in db.people.users
    ensures var k, d := Identify(db, r, w, claim), DecideUnseen(db, r, w, claim);
            k.user == u && u == w.ids.user && (forall i :: !HasIdentity(db.people, r.provider, r.subject, i)) &&
            d.SignUp? && k.db.people.users[u] == User(d.email, false, true)
  {
    hide DecideUnseen, Attach, Schema;
    if j :| HasIdentity(db.people, r.provider, r.subject, j) {
      IdentifyHit(db, r, w, claim, j);
    } else {
      AttachMakes(db, r, w, DecideUnseen(db, r, w, claim), u);
    }
  }

  // ---- Invites are spent once -------------------------------------------------------------------------------

  /** Does the step, if it commits, take up the invite with this token? */
  ghost predicate TakesUp(c: Config, db: Db, step: Step, w: World, token: string) {
    match step
    case TakeUpInvite(_, t) => t == token
    case PasskeySignup(_, invite, hash, _, _) => hash == "" && invite == token
    case Resolve(r) => !r.link && r.invite == token && PendingInvite(db.invites, token, w.now) &&
      Body(c, db, step, w).res.Ok? && Body(c, db, step, w).res.user !in db.people.users
    case _ => false
  }

  /** The invite was pending, is spent now, and its user has the membership it names. */
  ghost predicate TakenUp(db: Db, q: Db, u: Id, token: string, w: World) {
    token in db.invites &&
    var inv := db.invites[token];
    token != "" && !inv.accepted && w.now < inv.expires &&
    q.invites == db.invites[token := Invitation(inv.email, inv.org, inv.key, inv.role, inv.expires, true)] &&
    w.ids.invited !in db.members && w.ids.invited in q.members &&
    q.members[w.ids.invited] == Membership(inv.org, "user", u, inv.key, inv.role, Source.Invite)
  }

  lemma TakeInviteTakesUp(db: Db, token: string, u: Id, w: World)
    requires TakeInvite(db, token, u, w).Some?
    ensures TakenUp(db, TakeInvite(db, token, u, w).value, u, token, w)
  {
  }

  lemma SignInKeepsRow(db: Db, u: Id, grant: bool, claim: bool, provider: Id, presented: string, w: World, id: RowId)
    requires id in db.members
    ensures var q := SignIn(db, u, grant, claim, provider, presented, w).db;
            id in q.members && q.members[id] == db.members[id]
  {
    hide Belongs;
  }

  /** Group sync and JIT leave every row alone that no provider manages. */
  lemma ProvisionKeepsRow(db: Db, r: LoginRequest, u: Id, w: World, id: RowId)
    requires Provision(db, r, u, w).Some? && id in db.members && db.members[id].source != IdP
    ensures var q := Provision(db, r, u, w).value; id in q.members && q.members[id] == db.members[id]
  {
    hide Belongs, JitApplies, GroupSync.SyncOutcome;
    if r.groups.Present? && UniqueRows(db.members) && GroupSync.NewIds(w.ids.synced, db.members) {
      SyncKeepsRow(w, db.members, GroupSync.SyncInput(r.org, u, r.provider, r.groups.groups), id);
    }
  }

  lemma SyncKeepsRow(w: World, rows: Rows, inp: GroupSync.SyncInput, id: RowId)
    requires UniqueRows(rows) && GroupSync.NewIds(w.ids.synced, rows) && id in rows && rows[id].source != IdP
    ensures var after := GroupSync.SyncOutcome(w.orgs.cat, w.orgs.mappings, rows, [], inp, w.ids.synced).rows;
            id in after && after[id] == rows[id]
  {
    hide GroupSync.Final;
    if !GroupSync.Skips(inp) {
      var t := GroupSync.TaskFor(w.orgs.cat, w.orgs.mappings, rows, inp, w.ids.synced);
      var ks := GroupSync.OrderFor(w.orgs.cat, w.orgs.mappings, inp);
      GroupSync.TaskForIsValid(w.orgs.cat, w.orgs.mappings, rows, inp, w.ids.synced);
      var s0 := GroupSync.State(rows, [], GroupSync.NOTHING);
      GroupSync.SyncFinal(t, ks, GroupSync.StaleIds(t), s0);
      GroupSync.SyncFrames(t, GroupSync.Removes(t, GroupSync.StaleIds(t), GroupSync.Upserts(t, ks, s0)).rows, id);
    }
  }

  /** What steps 1 to 4 do to the invites. */
  lemma IdentifyInvites(db: Db, r: LoginRequest, w: World, claim: bool)
    requires Schema(db.people) && Identify(db, r, w, claim).Known?
    ensures var k := Identify(db, r, w, claim);
            if k.user in db.people.users || !PendingInvite(db.invites, r.invite, w.now)
            then k.db.invites == db.invites
            else TakenUp(db, k.db, k.user, r.invite, w)
  {
    hide DecideUnseen, Attach, Schema, TakenUp;
    if j :| HasIdentity(db.people, r.provider, r.subject, j) {
      IdentifyHit(db, r, w, claim, j);
    } else {
      UnseenEnds(db, r, w, claim);
      AttachInvites(db, r, w, DecideUnseen(db, r, w, claim));
    }
  }

  lemma AttachInvites(db: Db, r: LoginRequest, w: World, d: Unseen)
    requires Attach(db, r, w, d).Known?
    ensures var k := Attach(db, r, w, d);
            (k.user in db.people.users <==> d.LinkTo?) && !d.Deny? &&
            if d.LinkTo? || d.via != "invite" then k.db.invites == db.invites
            else TakenUp(db, k.db, k.user, r.invite, w)
  {
    hide TakeInvite;
    if d.SignUp? && d.via == "invite" {
      var p := AddUser(db.people, w.ids.user, User(d.email, false, true));
      var q := AddIdentity(p, w.ids.row, Identity(w.ids.user, r.provider, r.subject, r.email));
      TakeInviteTakesUp(db.(people := q), r.invite, w.ids.user, w);
    }
  }

  lemma LoginInvites(c: Config, db: Db, r: LoginRequest, w: World)
    requires Schema(db.people) && !r.link && ResolveTx(c, db, r, w).res.Ok?
    ensures var u, q := ResolveTx(c, db, r, w).res.user, ResolveTx(c, db, r, w).db;
            if u in db.people.users || !PendingInvite(db.invites, r.invite, w.now) then q.invites == db.invites
            else TakenUp(db, q, u, r.invite, w)
  {
    hide Identify, Provision, SignIn, Schema, Claimants, PlatformMembers, PendingInvite;
    var claim, grant := !db.bootstrapDone, IsAdminClaim(c, r) || IsTokenClaim(c, db, r);
    var db1 := if claim then SetBootstrapDone(db) else db;
    IdentifyEnds(db1, r, w, claim);
    var k := Identify(db1, r, w, claim);
    IdentifyInvites(db1, r, w, claim);
    ProvisionElsewhere(k.db, r, k.user, w);
    var q := Provision(k.db, r, k.user, w).value;
    SignInKeepsFlag(q, k.user, grant, claim, r.provider, r.presented, w);
    SignInJoins(q, k.user, grant, claim, r.provider, r.presented, w);
    if k.user !in db.people.users && PendingInvite(db.invites, r.invite, w.now) {
      ProvisionKeepsRow(k.db, r, k.user, w, w.ids.invited);
      SignInKeepsRow(q, k.user, grant, claim, r.provider, r.presented, w, w.ids.invited);
    }
  }

  lemma PasskeySignupInvites(c: Config, db: Db, step: Step, w: World)
    requires step.PasskeySignup? && Body(c, db, step, w).res.Ok?
    ensures var out := Body(c, db, step, w);
            if step.bootstrapHash != "" then out.db.invites == db.invites
            else TakenUp(db, out.db, out.res.user, step.invite, w)
  {
    hide SignIn, TakeInvite, EmailTaken, CredentialTaken;
    var claim := step.bootstrapHash != "";
    var user := if claim then User(step.email, false, false) else User(db.invites[step.invite].email, false, true);
    var db1 := WithPasskeyUser(if claim then SetBootstrapDone(db) else db, user, claim, step.newKey, w);
    var db2 := if claim then db1 else TakeInvite(db1, step.invite, w.ids.user, w).value;
    if !claim { TakeInviteTakesUp(db1, step.invite, w.ids.user, w); }
    SignInKeepsFlag(db2, w.ids.user, claim, claim, PASSKEY_PROVIDER, step.presented, w);
    SignInJoins(db2, w.ids.user, claim, claim, PASSKEY_PROVIDER, step.presented, w);
    if !claim {
      SignInKeepsRow(db2, w.ids.user, claim, claim, PASSKEY_PROVIDER, step.presented, w, w.ids.invited);
    }
  }

  /** Invites over a step: one taken up was pending, is spent, and leaves its user the membership it
      names; a new one is pending; nothing else touches any. */
  lemma InvitesExactly(c: Config, db: Db, step: Step, w: World, token: string)
    requires Schema(db.people)
    ensures var out, q := Body(c, db, step, w), Next(c, db, step, w);
            if out.res.Ok? && TakesUp(c, db, step, w, token) then TakenUp(db, q, out.res.user, token, w)
            else if out.res.Ok? && step.CreateInvite? && step.token == token then
              token !in db.invites && q.invites == db.invites[token := step.invitation.(accepted := false)]
            else (token in q.invites <==> token in db.invites) &&
                 (token in db.invites ==> q.invites[token] == db.invites[token])
  {
    hide ResolveTx, PasskeySignupTx, SignIn, SignInMethods, PasskeysOf, CredentialTaken, Schema, PendingInvite,
      TakeInvite;
    if Body(c, db, step, w).res.Ok? {
      match step
      case Resolve(r) => ResolveInvites(c, db, r, w);
      case PasskeySignup(_, _, _, _, _) => PasskeySignupInvites(c, db, step, w);
      case TakeUpInvite(user, t) => TakeInviteTakesUp(db, t, user, w);
      case PasskeyLogin(key, user, n, presented) =>
        SignInKeepsFlag(db.(people := TouchKey(db.people, key, n)), user, false, false, PASSKEY_PROVIDER, presented, w);
      case _ =>
    }
  }

  lemma ResolveInvites(c: Config, db: Db, r: LoginRequest, w: World)
    requires Schema(db.people) && ResolveTx(c, db, r, w).res.Ok?
    ensures var u, q := ResolveTx(c, db, r, w).res.user, ResolveTx(c, db, r, w).db;
            if r.link || u in db.people.users || !PendingInvite(db.invites, r.invite, w.now)
            then q.invites == db.invites
            else TakenUp(db, q, u, r.invite, w)
  {
    hide Identify, Provision, SignIn, Schema, CanLink, HasProvider, PendingInvite, TakenUp;
    if !r.link { LoginInvites(c, db, r, w); }
  }

  // ---- What provisioning and the grant write ---------------------------------------------------------------

  /** May JIT make this user a member of the provider's organisation: turned on, with a usable role
      that is no owner role, for an address of a domain the organisation verified? */
  predicate JitMay(r: LoginRequest, w: World) {
    r.org != PLATFORM_ORG && r.email != "" && w.orgs.verifiedOrg == r.org && r.org in w.orgs.jit &&
    w.orgs.jit[r.org].enabled && w.orgs.jit[r.org].defaultRole.Some? &&
    var role := w.orgs.jit[r.org].defaultRole.value;
    RoleUsable(w.orgs.cat, r.org, role) && !OwnerEquivalent(role, w.orgs.cat.roles[role])
  }

  /** Every membership provisioning makes is the user's, in the provider's organisation, which SCIM
      does not manage: an idp row from groups that were asserted, or the JIT row. */
  lemma ProvisionedRows(db: Db, r: LoginRequest, u: Id, w: World, id: RowId)
    requires Provision(db, r, u, w).Some?
    requires id in Provision(db, r, u, w).value.members && id !in db.members
    ensures w.orgs.sso.Some? && !w.orgs.sso.value.scimManaged && r.org !in {"", PLATFORM_ORG}
    ensures var m := Provision(db, r, u, w).value.members[id];
            m.org == r.org && m.actorType == "user" && m.actor == u &&
            if m.source == IdP then w.orgs.sso.value.groupSync && r.groups.Present?
            else id == w.ids.joined && JitMay(r, w) &&
                 m == Membership(r.org, "user", u, OrgKey(r.org), w.orgs.jit[r.org].defaultRole, Jit)
  {
    hide Belongs, GroupSync.SyncOutcome, RoleUsable, OwnerEquivalent;
    if w.orgs.sso.value.groupSync && r.groups.Present? {
      SyncMakesOwnRows(w, db.members, GroupSync.SyncInput(r.org, u, r.provider, r.groups.groups), id);
    }
  }

  lemma SyncMakesOwnRows(w: World, rows: Rows, inp: GroupSync.SyncInput, id: RowId)
    requires UniqueRows(rows) && GroupSync.NewIds(w.ids.synced, rows) && id !in rows
    ensures var after := GroupSync.SyncOutcome(w.orgs.cat, w.orgs.mappings, rows, [], inp, w.ids.synced).rows;
            id in after ==>
              after[id].org == inp.org && after[id].actorType == "user" && after[id].actor == inp.user &&
              after[id].source == IdP
  {
    hide GroupSync.Final;
    if !GroupSync.Skips(inp) {
      var t := GroupSync.TaskFor(w.orgs.cat, w.orgs.mappings, rows, inp, w.ids.synced);
      var ks := GroupSync.OrderFor(w.orgs.cat, w.orgs.mappings, inp);
      GroupSync.TaskForIsValid(w.orgs.cat, w.orgs.mappings, rows, inp, w.ids.synced);
      var s0 := GroupSync.State(rows, [], GroupSync.NOTHING);
      GroupSync.SyncFinal(t, ks, GroupSync.StaleIds(t), s0);
      GroupSync.SyncFrames(t, GroupSync.Removes(t, GroupSync.StaleIds(t), GroupSync.Upserts(t, ks, s0)).rows, id);
    }
  }

  /** And JIT does make a member of whoever it may, unless SCIM manages the user. */
  lemma JitMakesMember(db: Db, r: LoginRequest, u: Id, w: World)
    requires Provision(db, r, u, w).Some? && JitMay(r, w) && w.orgs.sso.Some? && !w.orgs.sso.value.scimManaged
    ensures exists id :: id in Provision(db, r, u, w).value.members &&
              SameSlot(Provision(db, r, u, w).value.members[id],
                       Membership(r.org, "user", u, Key("org", r.org), None, Jit))
  {
    hide Reconciled, OwnerEquivalent;
    var first := if w.orgs.sso.value.groupSync then Reconciled(db.members, r, u, w).value else Written(db.members, []);
    var after := Provision(db, r, u, w).value.members;
    assert JitApplies(r, w);
    assert after == Joined(first.rows, r, u, w).value.rows;
    if Belongs(first.rows, r.org, u) {
      var i :| i in first.rows && first.rows[i].org == r.org && first.rows[i].actorType == "user" &&
        first.rows[i].actor == u && first.rows[i].key == OrgKey(r.org);
      assert i in after;
    } else {
      assert w.ids.joined in after;
    }
  }

  /** The grant makes its user an owner of the platform, unless it is a platform member already. */
  lemma GrantGivesOwnerRole(db: Db, u: Id, claim: bool, provider: Id, presented: string, w: World)
    requires SignIn(db, u, true, claim, provider, presented, w).res.Ok? && u !in PlatformMembers(db.members)
    ensures SignIn(db, u, true, claim, provider, presented, w).db.members ==
            db.members[w.ids.granted := Membership("00000000000000000000000000000000", "user", u,
              Key("org", "00000000000000000000000000000000"), Some("00000000000000000000000000000000"), Manual)]
    ensures w.ids.granted !in db.members
  {
    BelongsIsMember(db.members, u);
  }

  lemma BelongsIsMember(rows: Rows, u: Id)
    ensures Belongs(rows, PLATFORM_ORG, u) <==> u in PlatformMembers(rows)
  {
    if Belongs(rows, PLATFORM_ORG, u) {
      var i :| i in rows && rows[i].org == PLATFORM_ORG && rows[i].actorType == "user" && rows[i].actor == u &&
        rows[i].key == OrgKey(PLATFORM_ORG);
      assert PlatformRow(rows[i]);
    }
  }

  /** So whoever claims the platform owns it: a claiming sign-in whose user was no platform member, and
      becomes none by invite, gives it the owner role. */
  lemma ClaimantOwns(c: Config, db: Db, step: Step, w: World)
    requires !db.bootstrapDone && Next(c, db, step, w).bootstrapDone
    requires Body(c, db, step, w).res.user !in PlatformMembers(db.members)
    requires step.Resolve? ==> !PlatformInvite(db, step.r.invite)
    ensures var q, u := Next(c, db, step, w), Body(c, db, step, w).res.user;
            w.ids.granted in q.members && q.members[w.ids.granted] ==
              Membership("00000000000000000000000000000000", "user", u, Key("org", "00000000000000000000000000000000"),
                Some("00000000000000000000000000000000"), Manual)
  {
    hide ResolveTx, PasskeySignupTx, PlatformMembers, LinkTx, SignInMethods, PasskeysOf, AcceptInvite, CredentialTaken;
    ClaimNeedsProof(c, db, step, w);
    if step.Resolve? {
      LoginClaimantOwns(c, db, step.r, w);
    } else {
      assert step.PasskeySignup?;
      SignupClaimantOwns(c, db, step, w);
    }
  }

  lemma LoginClaimantOwns(c: Config, db: Db, r: LoginRequest, w: World)
    requires !r.link && !db.bootstrapDone && ResolveTx(c, db, r, w).res.Ok? && !PlatformInvite(db, r.invite)
    requires ResolveTx(c, db, r, w).res.user !in PlatformMembers(db.members)
    ensures var q, u := ResolveTx(c, db, r, w).db, ResolveTx(c, db, r, w).res.user;
            w.ids.granted in q.members && q.members[w.ids.granted] ==
              Membership("00000000000000000000000000000000", "user", u, Key("org", "00000000000000000000000000000000"),
                Some("00000000000000000000000000000000"), Manual)
  {
    hide Identify, Provision, SignIn, DecideUnseen, PlatformMembers, Claimants;
    var db1 := SetBootstrapDone(db);
    IdentifyEnds(db1, r, w, true);
    var k := Identify(db1, r, w, true);
    var q := Provision(k.db, r, k.user, w).value;
    IdentifyJoins(db1, r, w, true);
    ProvisionElsewhere(k.db, r, k.user, w);
    SignInJoins(q, k.user, true, true, r.provider, r.presented, w);
    GrantGivesOwnerRole(q, k.user, true, r.provider, r.presented, w);
  }

  lemma SignupClaimantOwns(c: Config, db: Db, step: Step, w: World)
    requires step.PasskeySignup? && !db.bootstrapDone && Body(c, db, step, w).res.Ok?
    requires Body(c, db, step, w).res.user !in PlatformMembers(db.members)
    ensures var q, u := Body(c, db, step, w).db, Body(c, db, step, w).res.user;
            w.ids.granted in q.members && q.members[w.ids.granted] ==
              Membership("00000000000000000000000000000000", "user", u, Key("org", "00000000000000000000000000000000"),
                Some("00000000000000000000000000000000"), Manual)
  {
    hide SignIn, AcceptInvite, EmailTaken, CredentialTaken, PlatformMembers;
    var db1 := WithPasskeyUser(SetBootstrapDone(db), User(step.email, false, false), true, step.newKey, w);
    SignInJoins(db1, w.ids.user, true, true, PASSKEY_PROVIDER, step.presented, w);
    GrantGivesOwnerRole(db1, w.ids.user, true, PASSKEY_PROVIDER, step.presented, w);
  }

  // ---- The audit trail only grows ----------------------------------------------------------------------------

  lemma SignInAudit(db: Db, u: Id, grant: bool, claim: bool, provider: Id, presented: string, w: World)
    requires SignIn(db, u, grant, claim, provider, presented, w).res.Ok?
    ensures SignIn(db, u, grant, claim, provider, presented, w).db.audit ==
            db.audit + (if claim then [Bootstrapped(u)] else []) + [LoggedIn(u, provider)]
  {
    hide Belongs, InsertRow;
  }

  /** What steps 1 to 4 add: nothing for a known identity, the link, or the sign-up. */
  lemma IdentifyAudit(db: Db, r: LoginRequest, w: World, claim: bool)
    requires Schema(db.people) && Identify(db, r, w, claim).Known?
    ensures var k := Identify(db, r, w, claim);
            if exists i :: HasIdentity(db.people, r.provider, r.subject, i)
            then k.db.audit == db.audit && k.user in db.people.users
            else if k.user in db.people.users then k.db.audit == db.audit + [LinkedByEmail(k.user, r.provider)]
            else
              DecideUnseen(db, r, w, claim).SignUp? &&
              k.db.audit == db.audit + [SignedUp(k.user, DecideUnseen(db, r, w, claim).via)]
  {
    hide DecideUnseen, Attach, Schema;
    if j :| HasIdentity(db.people, r.provider, r.subject, j) {
      IdentifyHit(db, r, w, claim, j);
    } else {
      AttachAudit(db, r, w, DecideUnseen(db, r, w, claim));
    }
  }

  lemma AttachAudit(db: Db, r: LoginRequest, w: World, d: Unseen)
    requires Attach(db, r, w, d).Known?
    ensures var k := Attach(db, r, w, d);
            if k.user in db.people.users then d.LinkTo? && k.db.audit == db.audit + [LinkedByEmail(k.user, r.provider)]
            else d.SignUp? && k.db.audit == db.audit + [SignedUp(k.user, d.via)]
  {
    hide AcceptInvite;
  }

  lemma LoginAudit(c: Config, db: Db, r: LoginRequest, w: World)
    requires Schema(db.people) && !r.link && ResolveTx(c, db, r, w).res.Ok?
    ensures var q, u := ResolveTx(c, db, r, w).db.audit, ResolveTx(c, db, r, w).res.user;
            db.audit <= q &&
            (u !in db.people.users ==> exists via :: SignedUp(u, via) in q) &&
              (!db.bootstrapDone ==> Bootstrapped(u) in q) &&
            (u in db.people.users && (forall i :: !HasIdentity(db.people, r.provider, r.subject, i)) ==>
              LinkedByEmail(u, r.provider) in q)
  {
    hide Identify, Provision, SignIn, DecideUnseen, Schema;
    var claim, grant := !db.bootstrapDone, IsAdminClaim(c, r) || IsTokenClaim(c, db, r);
    var db1 := if claim then SetBootstrapDone(db) else db;
    IdentifyEnds(db1, r, w, claim);
    var k := Identify(db1, r, w, claim);
    var q := Provision(k.db, r, k.user, w).value;
    IdentifyAudit(db1, r, w, claim);
    ProvisionAudit(k.db, r, k.user, w);
    SignInAudit(q, k.user, grant, claim, r.provider, r.presented, w);
    SignInJoins(q, k.user, grant, claim, r.provider, r.presented, w);
    if k.user !in db.people.users {
      var row := SignedUp(k.user, DecideUnseen(db1, r, w, claim).via);
      assert row in k.db.audit;
      StaysIn(k.db.audit, q.audit, row);
      assert row in ResolveTx(c, db, r, w).db.audit;
    } else if !exists i :: HasIdentity(db.people, r.provider, r.subject, i) {
      StaysIn(k.db.audit, q.audit, LinkedByEmail(k.user, r.provider));
    }
  }

  lemma StaysIn(a: seq<Audit>, b: seq<Audit>, row: Audit)
    requires a <= b && row in a
    ensures row in b
  {
    assert b == a + b[|a|..];
  }

  lemma ProvisionAudit(db: Db, r: LoginRequest, u: Id, w: World)
    requires Provision(db, r, u, w).Some?
    ensures db.audit <= Provision(db, r, u, w).value.audit
  {
    hide Reconciled, Joined;
  }

  /** No step takes a row out of the audit trail, and accounts do not come into being, claim the
      platform or get identities by address without one. */
  lemma AuditOnlyGrows(c: Config, db: Db, step: Step, w: World)
    requires Schema(db.people)
    ensures var q, res := Next(c, db, step, w), Body(c, db, step, w).res;
            db.audit <= q.audit &&
            (forall u :: u in q.people.users && u !in db.people.users ==> exists via :: SignedUp(u, via) in q.audit) &&
            (q.bootstrapDone && !db.bootstrapDone ==> Bootstrapped(res.user) in q.audit) &&
            (step.Resolve? && !step.r.link && res.Ok? && res.user in db.people.users &&
             (forall i :: !HasIdentity(db.people, step.r.provider, step.r.subject, i)) ==>
              LinkedByEmail(res.user, step.r.provider) in q.audit)
  {
    hide ResolveTx, PasskeySignupTx, LinkTx, SignIn, SignInMethods, PasskeysOf, AcceptInvite, CredentialTaken, Schema;
    if Body(c, db, step, w).res.Ok? {
      forall u | u in Next(c, db, step, w).people.users && u !in db.people.users
        ensures Body(c, db, step, w).res == Ok(u) && (step.PasskeySignup? || (step.Resolve? && !step.r.link))
      {
        NewUsersAreAllowed(c, db, step, w, u);
      }
      if !db.bootstrapDone { ClaimNeedsProof(c, db, step, w); }
      match step
      case Resolve(r) => if r.link { LinkAudit(c, db, r, w); } else { LoginAudit(c, db, r, w); }
      case PasskeySignup(_, _, _, _, _) => PasskeySignupAudit(c, db, step, w);
      case PasskeyLogin(key, user, n, presented) =>
        SignInAudit(db.(people := TouchKey(db.people, key, n)), user, false, false, PASSKEY_PROVIDER, presented, w);
      case _ =>
    }
  }

  lemma LinkAudit(c: Config, db: Db, r: LoginRequest, w: World)
    requires r.link
    ensures var q := ResolveTx(c, db, r, w).db; db.audit <= q.audit && q.people.users == db.people.users
  {
    hide CanLink, HasProvider;
  }

  lemma PasskeySignupAudit(c: Config, db: Db, step: Step, w: World)
    requires step.PasskeySignup? && Body(c, db, step, w).res.Ok?
    ensures var out := Body(c, db, step, w);
            db.audit <= out.db.audit && out.res == Ok(w.ids.user) &&
            SignedUp(w.ids.user, if step.bootstrapHash != "" then "bootstrap" else "invite") in out.db.audit &&
            (!db.bootstrapDone ==> Bootstrapped(w.ids.user) in out.db.audit)
  {
    hide SignIn, AcceptInvite, EmailTaken, CredentialTaken;
    var claim := step.bootstrapHash != "";
    var user := if claim then User(step.email, false, false) else User(db.invites[step.invite].email, false, true);
    var db1 := WithPasskeyUser(if claim then SetBootstrapDone(db) else db, user, claim, step.newKey, w);
    var db2 := if claim then db1 else TakeInvite(db1, step.invite, w.ids.user, w).value;
    SignInAudit(db2, w.ids.user, claim, claim, PASSKEY_PROVIDER, step.presented, w);
    SignInJoins(db2, w.ids.user, claim, claim, PASSKEY_PROVIDER, step.presented, w);
  }

  // ---- Passkeys and removals, row by row ------------------------------------------------------------------

  /** A passkey signs in exactly the live user it belongs to, when passkeys are on, the platform is
      claimed and its counter has advanced; storage apart, nothing else refuses it. */
  lemma PasskeyLoginIff(c: Config, db: Db, step: Step, w: World)
    requires step.PasskeyLogin?
    ensures var p, k := db.people, step.key;
            Body(c, db, step, w).res.Ok? <==>
              db.passkeysOn && db.bootstrapDone && step.user in p.users && !p.users[step.user].deleted &&
              step.user != FORMER_MEMBER && k in p.passkeys && p.passkeys[k].user == step.user &&
              (p.passkeys[k].signCount == 0 || p.passkeys[k].signCount < step.signCount) &&
              !w.fails && w.ids.token !in db.sessions
    ensures Body(c, db, step, w).res.Ok? ==>
              Body(c, db, step, w).res.user == step.user &&
              Next(c, db, step, w).people == db.people.(passkeys := db.people.passkeys[step.key :=
                db.people.passkeys[step.key].(signCount := step.signCount)])
  {
  }

  /** Unlinking takes that one identity of the user's, deleting a passkey that one passkey, each
      unless it is the last way in; adding one adds just that. */
  lemma MethodStepsExactly(c: Config, db: Db, step: Step, w: World)
    requires step.Unlink? || step.DeletePasskey? || step.AddPasskey?
    ensures var p, ok, q := db.people, Body(c, db, step, w).res.Ok?, Next(c, db, step, w);
            match step {
              case Unlink(u, i) =>
                (ok <==> i in p.identities && p.identities[i].user == u && !w.fails &&
                         HasMethod(p.(identities := p.identities - {i}), db.passkeysOn, u)) &&
                q.people == if ok then p.(identities := p.identities - {i}) else p
              case DeletePasskey(u, k) =>
                (ok <==> k in p.passkeys && p.passkeys[k].user == u && !w.fails &&
                         HasMethod(p.(passkeys := p.passkeys - {k}), db.passkeysOn, u)) &&
                q.people == if ok then p.(passkeys := p.passkeys - {k}) else p
              case AddPasskey(x) =>
                (ok <==> db.passkeysOn && x.user in p.users && w.ids.row !in p.passkeys && !w.fails &&
                         |PasskeysOf(p, x.user)| < 20 &&
                         forall k :: k in p.passkeys ==> p.passkeys[k].credential != x.credential) &&
                q.people == if ok then p.(passkeys := p.passkeys[w.ids.row := x]) else p
            }
  {
    hide SignInMethods, PasskeysOf, HasMethod;
    match step {
      case Unlink(u, i) => CountMeansHas(DropIdentity(db.people, i), db.passkeysOn, u);
      case DeletePasskey(u, k) => CountMeansHas(DropKey(db.people, k), db.passkeysOn, u);
      case _ =>
    }
  }

  /** Linking from a live session adds the asserted identity to that session's user, or finds it there
      already; it never moves one and opens no session. */
  lemma LinkExactly(c: Config, db: Db, r: LoginRequest, w: World)
    requires r.link && Body(c, db, Resolve(r), w).res.Ok?
    ensures r.linkSession in db.sessions && r.presented == r.linkSession && w.now < db.sessions[r.linkSession].expires
    ensures var u, p, q := db.sessions[r.linkSession].user, db.people, Next(c, db, Resolve(r), w);
            Body(c, db, Resolve(r), w).res.user == u && u in p.users && !p.users[u].deleted &&
            if q == db then exists i :: HasIdentity(p, r.provider, r.subject, i) && p.identities[i].user == u
            else
              (forall i :: !HasIdentity(p, r.provider, r.subject, i)) && w.ids.row !in p.identities &&
              (forall i :: i in p.identities && p.identities[i].user == u ==> p.identities[i].provider != r.provider) &&
              q == db.(people := p.(identities := p.identities[w.ids.row := Identity(u, r.provider, r.subject,
                r.email)]),
                       audit := db.audit + [Linked(u, w.ids.row)])
  {
  }

  // ---- Whole runs ---------------------------------------------------------------------------------------

  ghost function Run(c: Config, db: Db, steps: seq<(Step, World)>): Db
    decreases |steps|
  {
    if steps == [] then db else Run(c, Next(c, db, steps[0].0, steps[0].1), steps[1..])
  }

  ghost predicate Good(db: Db, strangers: set<Id>) {
    Schema(db.people) && UniqueRows(db.members) && ClaimedOnce(db) && WithinLimit(db.people) &&
    strangers <= db.people.users.Keys && MethodsKept(db.people, db.passkeysOn, strangers)
  }

  lemma StepStaysGood(c: Config, db: Db, step: Step, w: World, strangers: set<Id>)
    requires Good(db, strangers)
    ensures var q := Next(c, db, step, w);
            Good(q, strangers) && (db.bootstrapDone ==> q.bootstrapDone && Claimants(q.audit) == Claimants(db.audit))
  {
    StepSound(c, db, step, w);
    StepKeepsClaim(c, db, step, w);
    StepKeepsLimit(c, db, step, w);
    StepKeepsMembersUnique(c, db, step, w);
    StepKeepsMethods(c, db, step, w, strangers);
  }

  /** Over any run: the constraints hold, the platform has at most one claimant, the claimant never
      changes, and every user these steps made can sign in. */
  lemma {:induction false} RunStaysGood(c: Config, db: Db, steps: seq<(Step, World)>, strangers: set<Id>)
    requires Good(db, strangers)
    ensures Good(Run(c, db, steps), strangers)
    ensures db.bootstrapDone ==>
      Run(c, db, steps).bootstrapDone && Claimants(Run(c, db, steps).audit) == Claimants(db.audit)
    decreases |steps|
  {
    if steps == [] {
    } else {
      var step, w := steps[0].0, steps[0].1;
      StepStaysGood(c, db, step, w, strangers);
      RunStaysGood(c, Next(c, db, step, w), steps[1..], strangers);
    }
  }

  /** Over any run, an invite that is spent stays spent and lets nobody in again. */
  lemma {:induction false} InviteIsSpentOnce(c: Config, db: Db, steps: seq<(Step, World)>, strangers: set<Id>,
    step: Step, w: World, token: string)
    requires Good(db, strangers) && token in db.invites && db.invites[token].accepted
    ensures var q := Run(c, db, steps);
            token in q.invites && q.invites[token] == db.invites[token] &&
            !(Body(c, q, step, w).res.Ok? && TakesUp(c, q, step, w, token))
    decreases |steps|
  {
    hide Body, TakesUp, MethodsKept, WithinLimit, ClaimedOnce;
    if steps == [] {
      InvitesExactly(c, db, step, w, token);
    } else {
      InvitesExactly(c, db, steps[0].0, steps[0].1, token);
      StepStaysGood(c, db, steps[0].0, steps[0].1, strangers);
      InviteIsSpentOnce(c, Next(c, db, steps[0].0, steps[0].1), steps[1..], strangers, step, w, token);
    }
  }

  // ---- The transactions as the resolver runs them ---------------------------------------------------------

  lemma IdentityIsUnique(p: People, provider: Id, subject: string, i: Id, j: Id)
    requires Schema(p) && HasIdentity(p, provider, subject, i) && HasIdentity(p, provider, subject, j)
    ensures i == j
  {
    assert SameSubject(p.identities[i], p.identities[j]);
  }

  lemma EmailIsUnique(p: People, u: Id)
    requires Schema(p) && u in p.users
    ensures EmailTaken(p, p.users[u].email) && UserByEmail(p, p.users[u].email) == u
  {
    assert SameEmail(p.users[u], p.users[UserByEmail(p, p.users[u].email)]);
  }

  lemma IdentifyHit(db: Db, r: LoginRequest, w: World, claim: bool, i: Id)
    requires Schema(db.people) && HasIdentity(db.people, r.provider, r.subject, i)
    ensures var u := db.people.identities[i].user;
            Identify(db, r, w, claim) ==
              if u !in db.people.users then Ends(Out(db, Failed))
              else if db.people.users[u].deleted then Ends(Out(db, Refused("user_deleted")))
              else Known(db.(people := TouchIdentity(db.people, i, r.email)), u)
  {
    forall j | HasIdentity(db.people, r.provider, r.subject, j) ensures j == i {
      IdentityIsUnique(db.people, r.provider, r.subject, j, i);
    }
  }

  /** The ids drawn for group sync are new. */
  ghost predicate FreshDraws(db: Db, w: World) {
    GroupSync.NewIds(w.ids.synced, db.members) && forall k :: w.ids.synced(k) != w.ids.invited
  }

  class Resolver {
    const c: Config
    var db: Db

    constructor (c: Config, db: Db)
      ensures this.c == c && this.db == db
    {
      this.c, this.db := c, db;
    }

    method FindIdentity(provider: Id, subject: string) returns (found: Option<Id>)
      ensures found.None? ==> forall i :: !HasIdentity(db.people, provider, subject, i)
      ensures found.Some? ==> HasIdentity(db.people, provider, subject, found.value)
    {
      var t := db.people.identities;
      if i :| i in t && t[i].provider == provider && t[i].subject == subject {
        return Some(i);
      }
      return None;
    }

    method FindUserByEmail(email: string) returns (found: Option<Id>)
      requires Schema(db.people)
      ensures found.Some? <==> EmailTaken(db.people, email)
      ensures found.Some? ==> found.value == UserByEmail(db.people, email)
    {
      if u :| u in db.people.users && db.people.users[u].email == email {
        EmailIsUnique(db.people, u);
        return Some(u);
      }
      return None;
    }

    method LinkOrSignUp(r: LoginRequest, w: World, claim: bool) returns (d: Unseen)
      requires Schema(db.people)
      ensures d == DecideUnseen(db, r, w, claim)
    {
      var verified := r.email != "" && r.emailVerified;
      var trusted := verified && r.trustEmail;
      if trusted && r.org != "" {
        trusted := w.orgs.verifiedOrg == r.org;
      }
      if !trusted && ScimVouches(db.people, r, w) {
        return LinkTo(w.orgs.scimUser.value);
      }
      if trusted {
        var existing := FindUserByEmail(r.email);
        if existing.Some? {
          var u := existing.value;
          if db.people.users[u].deleted || u == FORMER_MEMBER { return Deny("user_deleted"); }
          if db.people.users[u].emailVerified { return LinkTo(u); }
        }
      }
      d := SignUpMethod(db, r, w, claim);
      if d.SignUp? {
        var taken := FindUserByEmail(d.email);
        if taken.Some? { d := Deny("no_account"); }
      }
    }

    method SignedIn(u: Id, grant: bool, claim: bool, provider: Id, presented: string, w: World) returns (res: Result)
      modifies this`db
      ensures Out(db, res) == SignIn(old(db), u, grant, claim, provider, presented, w)
    {
      if grant {
        var granted := EnsurePlatformMember(db, u, w.ids.granted);
        if granted.None? { return Failed; }
        db := granted.value;
      }
      if claim { db := Log(db, [Bootstrapped(u)]); }
      if w.fails || w.ids.token in db.sessions { return Failed; }
      if presented != "" { db := db.(sessions := db.sessions - {presented}); }
      db := db.(sessions := db.sessions[w.ids.token := Session(u, provider, w.expires)]);
      db := Log(db, [LoggedIn(u, provider)]);
      res := Ok(u);
      ghost var none: set<string> := {};
      assert presented == "" ==> old(db).sessions - none == old(db).sessions;
    }

    /** linkOrSignUp's decision carried out, one write after the other. */
    method AttachTx(r: LoginRequest, w: World, d: Unseen) returns (res: Result)
      requires forall i :: !HasIdentity(db.people, r.provider, r.subject, i)
      modifies this`db
      ensures match Attach(old(db), r, w, d)
              case Known(q, u) => db == q && res == Ok(u)
              case Ends(out) => Out(db, res) == out
    {
      if d.Deny? { return Refused(d.reason); }
      ghost var start := db;
      var user := if d.LinkTo? then d.user else w.ids.user;
      if d.SignUp? {
        if user in db.people.users { return Failed; }
        db := db.(people := AddUser(db.people, user, User(d.email, false, true)));
      }
      var x := Identity(user, r.provider, r.subject, r.email);
      forall i ensures !HasIdentity(db.people, r.provider, r.subject, i) {
        assert !HasIdentity(start.people, r.provider, r.subject, i);
      }
      if w.ids.row in db.people.identities || user !in db.people.users {
        assert !CanLink(db.people, w.ids.row, x);
        return Failed;
      }
      assert CanLink(db.people, w.ids.row, x);
      db := db.(people := AddIdentity(db.people, w.ids.row, x));
      if d.LinkTo? {
        db := Log(db, [LinkedByEmail(user, r.provider)]);
        return Ok(user);
      }
      if d.via == "invite" {
        var taken := TakeInvite(db, r.invite, user, w);
        if taken.None? { return Failed; }
        db := taken.value;
      }
      db := Log(db, [SignedUp(user, d.via)]);
      res := Ok(user);
    }

    /** Steps 1 to 4: the identity and its user, or the end of the transaction. */
    method IdentifyTx(r: LoginRequest, w: World, claim: bool) returns (res: Result)
      requires Schema(db.people)
      modifies this`db
      ensures match Identify(old(db), r, w, claim)
              case Known(q, u) => db == q && res == Ok(u)
              case Ends(out) => Out(db, res) == out && !res.Ok?
    {
      hide Attach, DecideUnseen;
      var found := FindIdentity(r.provider, r.subject);
      if found.Some? {
        var user := db.people.identities[found.value].user;
        IdentifyHit(db, r, w, claim, found.value);
        if user !in db.people.users { return Failed; }
        if db.people.users[user].deleted { return Refused("user_deleted"); }
        db := db.(people := TouchIdentity(db.people, found.value, r.email));
        return Ok(user);
      }
      var d := LinkOrSignUp(r, w, claim);
      IdentifyEnds(db, r, w, claim);
      res := AttachTx(r, w, d);
    }

    /** orgProvisioning. */
    method ProvisionTx(r: LoginRequest, u: Id, w: World) returns (ok: bool)
      requires UniqueRows(db.members) && GroupSync.NewIds(w.ids.synced, db.members)
      modifies this`db
      ensures ok <==> Provision(old(db), r, u, w).Some?
      ensures db == if ok then Provision(old(db), r, u, w).value else old(db)
    {
      if r.org == "" || r.org == PLATFORM_ORG || w.orgs.sso.None? || w.orgs.sso.value.scimManaged { return true; }
      var rows, audit := db.members, [];
      if w.orgs.sso.value.groupSync {
        match r.groups {
          case Absent =>
          case Overage => audit := [SyncSkipped(u, r.org)];
          case Present(groups) =>
            var store := new GroupSync.MembershipStore(w.orgs.cat, w.orgs.mappings, rows);
            var report := store.ReconcileIdPMemberships(GroupSync.SyncInput(r.org, u, r.provider, groups),
              w.ids.synced);
            rows, audit := store.rows, SyncRows(store.audit);
        }
        assert Reconciled(db.members, r, u, w) == Some(Written(rows, audit));
      }
      var joined := Joined(rows, r, u, w);
      if joined.None? { return false; }
      db := Log(db.(members := joined.value.rows), audit + joined.value.audit);
      ok := true;
    }

    /** resolveTx for a sign-in: it writes as it goes, the claim flag first. */
    method LoginTx(r: LoginRequest, w: World) returns (res: Result)
      requires Schema(db.people) && UniqueRows(db.members) && FreshDraws(db, w) && !r.link
      modifies this`db
      ensures Out(db, res) == ResolveTx(c, old(db), r, w)
    {
      hide Identify, Provision, SignIn, Schema, UniqueRows;
      var admin := r.emailVerified && c.isAdminEmail(r.email) && r.org == "";
      var claim, token := !db.bootstrapDone, false;
      if claim {
        token := r.bootstrapHash != "" && Claims(c, db, r.bootstrapHash);
        if !admin && !token { return Refused("not_bootstrap_admin"); }
        db := SetBootstrapDone(db);
      }
      ghost var start := db;
      res := IdentifyTx(r, w, claim);
      if !res.Ok? { return; }
      IdentifyKeepsUnique(start, r, w, claim);
      var user := res.user;
      var provisioned := ProvisionTx(r, user, w);
      if !provisioned { return Failed; }
      res := SignedIn(user, admin || token, claim, r.provider, r.presented, w);
    }

    /** One IMMEDIATE transaction: the body's writes stay only if it succeeds. */
    method Login(r: LoginRequest, w: World) returns (res: Result)
      requires Schema(db.people) && UniqueRows(db.members) && FreshDraws(db, w) && !r.link
      modifies this`db
      ensures db == Next(c, old(db), Resolve(r), w) && res == Body(c, old(db), Resolve(r), w).res
    {
      if r.provider == "" || r.subject == "" { return Refused("invalid_assertion"); }
      var snapshot := db;
      res := LoginTx(r, w);
      if !res.Ok? { db := snapshot; }
    }

    /** identity.unlink: delete, then count what is left inside the transaction. */
    method HandleUnlink(user: Id, id: Id, w: World) returns (res: Result)
      modifies this`db
      ensures db == Next(c, old(db), Unlink(user, id), w) && res == Body(c, old(db), Unlink(user, id), w).res
    {
      if id !in db.people.identities || db.people.identities[id].user != user { return Refused("no_rows"); }
      var snapshot, provider := db, db.people.identities[id].provider;
      db := db.(people := DropIdentity(db.people, id));
      var left := SignInMethods(db.people, db.passkeysOn, user);
      if left < 1 {
        db := snapshot;
        return Refused("last_sign_in_method");
      }
      db := db.(sessions := map t | t in db.sessions &&
        !(db.sessions[t].user == user && db.sessions[t].provider == provider) :: db.sessions[t]);
      if w.fails {
        db := snapshot;
        return Failed;
      }
      db := Log(db, [Unlinked(user, id)]);
      res := Ok(user);
    }
  }
}
