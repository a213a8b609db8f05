# Boardchestrator, verified in Dafny

A model of the parts of Boardchestrator whose correctness is an argument over many steps, and proofs
about that model. `dafny verify dfyconfig.toml` checks everything.

| file | what it models |
|---|---|
| `Tenancy.dfy` | organisations, roles, memberships, owner-equivalence and the owner-list query shared by the next two |
| `GroupSync.dfy` | reconciling a user's memberships with the groups an identity provider sends |
| `LastOwner.dfy` | the last-owner guard, and every step that can change who owns an organisation, over whole runs |
| `Accounts.dfy` | login resolution, linking, sign-up, invites, provisioning at sign-in, passkeys, the bootstrap claim and removal of sign-in methods, as one transactional state machine |
| `SseHub.dfy` | the realtime hub: ring, live delivery and replay on reconnect, step by step |
| `EventBus.dfy` | the publish/subscribe bus under its read-write lock |
| `JobPool.dfy` | workers claiming, running, retrying and burying jobs |
| `RateLimit.dfy` | the per-key token bucket with sweeping and eviction |
| `ReplayCache.dfy` | the bounded one-time-id cache and the passkey challenge it spends |
| `Dispatch.dfy` | the action pipeline: checks, idempotency, execution, events and audit |
| `RemoveTags.dfy` | removal of elements from SVG uploads |
| `Claims.dfy` | dotted lookup in nested token claims |
| `Csv.dfy` | CSV reports and a reader for them (section 2 of RFC 4180, LF as record end) |
| `ReturnTo.dfy` | the check on the post-login destination |

Code that updates state in the repository is a class or a method with a loop here, proved against a
specification function; what is promised about it is proved about that function. Concurrent code is a
state machine whose steps are the atomic operations of the original (a lock held, a channel operation, one
SQL statement or transaction), and its theorems hold for every sequence of steps. A table is a map; a
query is the condition its SQL text states; a transaction either applies whole or leaves the state alone.
Random ids, clocks, assertions verified by cryptographic libraries and which store calls fail are
parameters.

## What the proofs found

- **Owners and foreign roles.** The guard of `role.update` looks at the owners of the editing
  organisation only, while `membership.create` stores any role id (internal/action/perms.go:112-170,
  193-214). So one step can leave another organisation without an owner, although the comment on the
  guard says no path does (internal/action/last_owner.go:13-18). `LastOwner.StepKeepsOwner` says exactly
  when, `LastOwner.ForeignEditCanStrip` gives an instance, and `LastOwner.OwnRunsKeepOwner` proves the
  promise for every run without such an edit.
- **Platform members by invite.** The platform's own organisation can be named by an invite
  (internal/action/invites.go:87-122), and the membership it names is created by whoever signs up with it or
  takes it up, through any provider (internal/action/invites.go:222-249). Besides the administrator addresses
  and the bootstrap token this is the one other way to become a platform member;
  `Accounts.PlatformMembersExactly` says so with equality, `Accounts.InviteMakesPlatformMember` is an instance.
- **Retry-After.** The wait is truncated to whole nanoseconds (internal/ratelimit/ratelimit.go:90). The next
  call can be refused at `now + wait` and always succeeds one nanosecond later (`RateLimit.WaitIsExact`).
  Rounding up to seconds hides that except when the truncated wait is a positive whole number of seconds
  (`RateLimit.ComingBackWorksIff`, instance `RateLimit.RetryAfterCanBeEarly`).
- **Two clock readings per passkey ceremony.** The flow's expiry and the challenge's are the same instant,
  so a challenge is spent at most once when one instant serves both checks. Each check reads the clock
  itself (internal/auth/flow.go:197, internal/auth/replay.go:43); a spent challenge passes again (given room) exactly
  when an attempt opened before the expiry is spent at or after it (`ReplayCache.SpentAgainIff`).
- **Removed elements leave a tail.** The scan stops after the `<` of the closing tag, so `/script>` stays in
  the output although the comment says tags and content are removed (internal/storage/storage.go:221-222,
  247-259). It stays exactly when the element's tags balance before the end of the input, whatever is nested in
  it; otherwise everything after the opening tag goes (`RemoveTags.TailStaysIff`). No opening tag survives
  the pass either way (`RemoveTags.NoOpeningLeft`).
- **Unquoted CSV columns.** The export of tasks writes three columns as they are; it reads back if and only if
  they hold no comma, quote or line feed (`Csv.TaskExportReadsBackIff`).
- **Concurrent calls with one idempotency key.** A key runs its handler at most once in every interleaving in
  which no lookup of it misses while another call with it is in flight, and no run of it is lost
  (`Dispatch.KeyRunsOnce`). A second run, or a run that finds its key recorded when it stores its result,
  means such an overlap or loss (`Dispatch.SecondRunMeansOverlap`), and overlapping misses whose handlers
  succeed do run twice (`Dispatch.OverlapRunsTwice`).
- **Replay and channel.** A reconnecting client can get one message by replay and again by its channel:
  exactly those recorded, or waiting for their fan-out, between the moments it was added and replayed
  (internal/sse/sse.go:326-339; `SseHub.SeenTwiceIff`, instance `SseHub.SeenTwice`).

## Model

| member | source | states |
|---|---|---|
| `Tenancy.KeepOwnersKeeps` | internal/action/last_owner.go:28-40 | filtering the candidate rows keeps exactly those whose role exists and is owner-equivalent |
| `Tenancy.FilterOwners` | internal/action/last_owner.go:28-40 | the in-place filter leaves the owner rows, in order, at the front of the buffer |
| `Tenancy.KeptAreOwners` | internal/action/last_owner.go:44-50 | the filtered list is non-empty iff the organisation has an owner, and is the single row asked about iff that row is its only owner |
| `Tenancy.ReadOwners` | internal/action/last_owner.go:28-50 | the query with its filter answers both questions exactly, the first spelled out from the rows: a live user with an org-level membership whose role is the owner role, is unreadable or grants everything |
| `Tenancy.TrimSpaceSplits` | internal/action/idp_mappings.go:438-442 | trimming takes white space from both ends of a group name and leaves none there |
| `GroupSync.PlanFor` | internal/action/idp_mappings.go:443-474 | every planned role is usable in the organisation, and each resource is planned once |
| `GroupSync.OldestMappingWins` | internal/action/idp_mappings.go:443-474 | the role planned for a resource is the one of the oldest mapping that applies to it |
| `GroupSync.DesiredFromOldest` | internal/action/idp_mappings.go:443-474 | every planned resource comes from such a mapping, and from nothing else |
| `GroupSync.SyncFinal` | internal/action/idp_mappings.go:487-539 | the upserts and removals leave exactly the tables described row by row by Final, whatever order stale rows are visited in |
| `GroupSync.RemovalOrderIsIrrelevant` | internal/action/idp_mappings.go:519-539 | two visiting orders of the stale rows end in the same table |
| `GroupSync.SyncConverges` | internal/action/idp_mappings.go:449-539 | afterwards a (resource, role) pair is an idp row of the user iff the mappings want it and no other source holds the resource, a preserved last owner excepted |
| `GroupSync.SyncFrames` | internal/action/idp_mappings.go:487-539 | rows of another user, organisation or source are unchanged; kept rows change their role only; new rows are idp rows of the user |
| `GroupSync.SyncKeepsRowsUnique` | migrations/0004_orgs.up.sql:54-64 | one membership per user and resource stays one |
| `GroupSync.SyncKeepsOwners` | internal/action/idp_mappings.go:398-419 | no organisation loses its last owner to a sync, however many rows the sync removes or demotes |
| `GroupSync.SyncTwice` | internal/action/idp_mappings.go:431-562 | a second sync with the same input changes nothing, also after a last owner was kept |
| `GroupSync.SyncReportsDifference` | internal/action/idp_mappings.go:487-539 | Added, Updated and Removed are exactly the difference between the tables before and after, Kept is what was held back, and nothing is listed twice |
| `GroupSync.ChangedIffTableDiffers` | internal/action/idp_mappings.go:365-368 | Changed() holds iff the membership table changed |
| `GroupSync.SyncAudits` | internal/action/idp_mappings.go:398-419 | a preserved owner is audited exactly once per sync |
| `GroupSync.MembershipStore.KeepLastOwner` | internal/action/idp_mappings.go:398-419 | keeps a row iff it is the only owner and the new role would not be an owner role; audits when it does |
| `GroupSync.MembershipStore.BuildPlan` | internal/action/idp_mappings.go:443-474 | the loop over mappings computes PlanFor |
| `GroupSync.MembershipStore.ApplyDesired` | internal/action/idp_mappings.go:487-518 | the loop over planned resources is the sequence of upserts |
| `GroupSync.MembershipStore.ApplyStale` | internal/action/idp_mappings.go:519-539 | the loop over stale rows is the sequence of removals |
| `GroupSync.MembershipStore.ReconcileIdPMemberships` | internal/action/idp_mappings.go:431-562 | the whole call leaves the table, audit rows and result of SyncOutcome |
| `GroupSync.OutcomeGrantsExactly` | internal/action/idp_mappings.go:431-562 | after the whole call, read off the tables: a (resource, role) pair is an idp membership of the user iff no other source holds the resource and the role is that of the oldest mapping of this organisation, this provider or any, and an asserted trimmed non-empty group, whose role and resource are usable; an only owner keeps its role instead |
| `GroupSync.DesiredIsChosen` | internal/db/queries/idp_mappings.sql:13-20 | the plan wants exactly the resources some fitting mapping names, with the role of the oldest |
| `GroupSync.OutcomeStaysInOrg` | internal/action/idp_mappings.go:456-471 | every row a call adds or changes has a role of the organisation or a platform system role, and a resource of the organisation |
| `GroupSync.OutcomeAudits` | internal/action/idp_mappings.go:540-562 | a call audits the preserved owner if there is one, then the three lists iff the table changed |
| `GroupSync.OutcomeSkips` | internal/action/idp_mappings.go:434-436 | without an organisation or user, or for the platform itself, nothing is read or written |
| `LastOwner.GrantsDecide` | internal/action/perms.go:112-170 | after a role edit a row is an owner row iff it holds another owner role, or the edited role still grants everything |
| `LastOwner.StepKeepsOwner` | internal/action/last_owner.go:55-83 | one step of any kind takes an organisation's last owner iff it is a role edit by another organisation that all its owners depend on |
| `LastOwner.RunKeepsOwner` | internal/action/last_owner.go:55-83 | over every run without such an edit, an organisation that has an owner keeps having one |
| `LastOwner.OwnRunsKeepOwner` | internal/action/last_owner.go:13-18 | in particular over every run in which each organisation edits only for itself |
| `LastOwner.ForeignEditCanStrip` | internal/action/perms.go:193-214 | a concrete table and edit for which the promise fails |
| `LastOwner.NextValid` | migrations/0004_orgs.up.sql:54-64 | the uniqueness constraint on memberships survives every step |
| `LastOwner.SyncOutcomeSound` | internal/action/idp_mappings.go:431-562 | a whole sync keeps rows unique and every organisation owned |
| `LastOwner.Database.HandleMemberRemove` | internal/action/invites.go:140-163 | removal, check and rollback together are one guarded step |
| `LastOwner.Database.HandleMembershipDelete` | internal/action/perms.go:216-236 | likewise for deletion by row id |
| `LastOwner.Database.HandleRoleUpdate` | internal/action/perms.go:112-170 | likewise for a role edit |
| `LastOwner.OwnerGuard.constructor` | internal/action/last_owner.go:55-70 | the guard remembers whether the organisation had an owner |
| `LastOwner.OwnerGuard.Check` | internal/action/last_owner.go:72-83 | refuses iff there was an owner and there is none now |
| `LastOwner.RemovalTakesNamed` | internal/action/invites.go:140-163 | a removal takes exactly the rows it names and is refused iff they are all the owner rows the organisation has; nothing else changes |
| `LastOwner.RoleEditChangesGrants` | internal/action/perms.go:112-170 | a role edit replaces the grants of the organisation's own role and nothing else; it is refused iff the role is not its own or its owners would all go |
| `LastOwner.CreateAddsItsRow` | internal/action/perms.go:193-214 | a created membership is the one row added, iff its id and slot are free |
| `LastOwner.InviteGivesWhatItNames` | internal/action/invites.go:222-249 | accepting a pending invite spends it and adds the membership it names; any other is refused and changes nothing |
| `LastOwner.InviteIsSpentOnce` | internal/action/invites.go:187-249 | over any run an invite once spent lets nobody in |
| `LastOwner.JitGivesDefaultRole` | internal/action/idp_mappings.go:98-120 | joining just in time gives the default role of an organisation that turned it on and verified the user, to a user who is no member yet, and never an owner role |
| `Accounts.StepSound` | internal/auth/resolve.go:153-294 | no step of login, link, sign-up, passkey, unlink or delete breaks uniqueness of (provider, subject), address or credential, and no existing row changes hands |
| `Accounts.NoStepRepoints` | internal/auth/resolve.go:316-372 | a (provider, subject) linked before and after a step belongs to the same user |
| `Accounts.StepKeepsClaim` | internal/auth/resolve.go:160-182 | auth.bootstrap rows equal the claimed flag, the claimant is a platform admin, no session exists before the claim, and a claimed platform keeps its claimant |
| `Accounts.RefusalFollowsTheClaimFlag` | internal/auth/resolve.go:765-788 | a remark: a claiming login can be refused after the flag is set in its transaction, and rolling back leaves the whole state as it was |
| `Accounts.StepKeepsMethods` | internal/action/identities.go:113-167 | with passkeys_enabled fixed, no step leaves a user without a sign-in method, and every user it creates has one |
| `Accounts.CountMeansHas` | internal/action/identities.go:26-43 | the count is positive iff the user has a usable method |
| `Accounts.PasskeysOffNeedsIdentities` | internal/action/identities.go:26-43 | turning passkeys off keeps the guarantee iff every user also has an identity |
| `Accounts.StepKeepsLimit` | internal/auth/passkey_resolve.go:255-285 | no user ever holds more passkeys than the limit |
| `Accounts.PlatformMembersExactly` | internal/auth/resolve.go:703-730 | after every step the platform members are those before it plus the user of a committed step that is a login with an administrator address or token, a token sign-up, or takes up a pending invite naming the platform; nobody else |
| `Accounts.InviteMakesPlatformMember` | internal/action/invites.go:222-249 | an instance of the last kind through an organisation's own provider |
| `Accounts.StepKeepsMembersUnique` | migrations/0004_orgs.up.sql:54-64 | one membership per user and resource survives every step |
| `Accounts.ProvisionElsewhere` | internal/auth/resolve.go:562-631 | group sync and JIT at sign-in write the provider's organisation only: no platform member, claim row or invite changes |
| `Accounts.AttachNeedsProof` | internal/auth/resolve.go:385-450 | an identity is attached to an existing account only with a live session of that account, a trusted verified address, or SCIM provisioning |
| `Accounts.PasskeySignupSound` | internal/auth/passkey_resolve.go:146-252 | a passkey sign-up keeps the constraints and every existing row |
| `Accounts.PasskeySignupClaims` | internal/auth/passkey_resolve.go:146-252 | a passkey sign-up claims an unclaimed platform by token only, and only once |
| `Accounts.PasskeyLoginClaims` | internal/auth/passkey_resolve.go:57-118 | a passkey login never touches the claim and never precedes it |
| `Accounts.RunStaysGood` | internal/auth/resolve.go:765-788 | over any run all of these hold together: constraints, single unchanging claimant, limit, and a method for every user |
| `Accounts.Resolver.FindIdentity` | internal/db/queries/users.sql:23-30 | the lookup returns the linked identity iff there is one |
| `Accounts.Resolver.LinkOrSignUp` | internal/auth/resolve.go:385-450 | the branches for an unseen identity compute DecideUnseen |
| `Accounts.Resolver.SignedIn` | internal/auth/resolve.go:262-294 | grants, audit rows and session replacement after identification are those of SignIn, whose effect is `Accounts.LoginOpensOwnSession` |
| `Accounts.Resolver.AttachTx` | internal/auth/resolve.go:205-236 | the writes for an unseen identity: user, identity, invite with its membership, audit |
| `Accounts.Resolver.IdentifyTx` | internal/auth/resolve.go:184-240 | steps 1 to 4 find or make the user as Identify does, or end the transaction |
| `Accounts.Resolver.ProvisionTx` | internal/auth/resolve.go:562-631 | group sync by the reconciler and the JIT membership are those of Provision |
| `Accounts.Resolver.LoginTx` | internal/auth/resolve.go:153-294 | the transaction body of a login is ResolveTx: gate, identity, provisioning, grant, claim row, session |
| `Accounts.Resolver.Login` | internal/auth/resolve.go:765-788 | committing on success and rolling back otherwise makes a login one step of the machine |
| `Accounts.Resolver.HandleUnlink` | internal/action/identities.go:113-167 | unlinking is one step of the machine |
| `Accounts.LoginOpensOwnSession` | internal/auth/resolve.go:262-294 | every committed login, passkey login and passkey sign-up for u leaves u live, one new session of u at that provider, the presented session gone and every other as it was, and ends the audit trail with u's login |
| `Accounts.OthersOpenNoSession` | internal/action/identities.go:113-167 | other steps open no session; unlinking ends the user's sessions of that provider, and those only |
| `Accounts.LoginWritesIdentity` | internal/auth/resolve.go:184-240 | a login leaves (provider, subject) linked to its user with the asserted address, writes that one identity row, and makes no user but that one |
| `Accounts.UnseenEnds` | internal/auth/resolve.go:385-503 | an unseen identity is linked, signed up or refused exactly as trusted address, SCIM, pending invite, claim, JIT and open sign-up allow, whatever order they are asked in |
| `Accounts.NewUsersAreAllowed` | internal/auth/resolve.go:467-503 | every account a step makes has such a ground, and the address it names: open sign-up needs allow_signup, a platform provider and a verified address |
| `Accounts.ClaimNeedsProof` | internal/auth/resolve.go:153-182 | an unclaimed platform is claimed by every sign-in that commits, and only by a verified administrator address from a platform provider or the bootstrap token |
| `Accounts.InvitesExactly` | internal/action/invites.go:222-249 | over every step: an invite taken up was pending, is spent, and leaves its user the membership it names, also after provisioning; no other invite changes |
| `Accounts.InviteIsSpentOnce` | internal/action/invites.go:187-249 | over any run a spent invite stays spent and is not taken up again |
| `Accounts.ProvisionKeepsRow` | internal/auth/resolve.go:562-631 | provisioning leaves every membership alone that no provider manages |
| `Accounts.ProvisionedRows` | internal/auth/resolve.go:562-631 | every membership provisioning makes is the user's, in the provider's organisation, which SCIM does not manage: an idp row from asserted groups, or the JIT row where JIT is on, its role usable and no owner role, and the address verified |
| `Accounts.JitMakesMember` | internal/auth/resolve.go:562-631 | and whoever JIT may make a member is one afterwards |
| `Accounts.GrantGivesOwnerRole` | internal/auth/resolve.go:703-730 | the grant gives a user who is no platform member the owner role there, and changes no other row |
| `Accounts.ClaimantOwns` | internal/auth/resolve.go:249-262 | so the claimant of the platform owns it |
| `Accounts.AuditOnlyGrows` | internal/auth/resolve.go:205-294 | over every step the audit trail only grows, and new accounts, the claim and identities attached by address each leave their row |
| `Accounts.PasskeyLoginIff` | internal/auth/passkey_resolve.go:57-131 | a passkey signs in iff passkeys are on, the platform is claimed, the passkey is that live user's and its counter has advanced, storage apart; it writes the counter |
| `Accounts.MethodStepsExactly` | internal/action/passkeys.go:164-200 | unlinking and deleting take the one row named, iff it is the user's and a method is left; adding one needs a free credential and fewer than 20 |
| `Accounts.LinkExactly` | internal/auth/resolve.go:316-372 | a link adds the asserted identity to the user of the live session presented, or finds it there; it moves none, opens no session and gives no second identity at a provider |
| `SseHub.PushedIsLatest` | internal/sse/sse.go:263-272 | pushing keeps the ring the tail of everything recorded |
| `SseHub.Ring.Record` | internal/sse/sse.go:263-272 | the shifting buffer implements that push in place |
| `SseHub.Ring.ReplaySince` | internal/sse/sse.go:280-290 | the replay loop returns the ring's messages after the given id that the client may see |
| `SseHub.Since` | internal/sse/sse.go:228-237 | a replay holds a message iff the ring does, its id is later and the client is in its audience |
| `SseHub.RingIsRecentLog` | internal/sse/sse.go:202-222 | in every interleaving the ring is the last min(256, n) recorded messages with strictly increasing ids, none of them user-targeted |
| `SseHub.NoGap` | internal/sse/sse.go:326-339 | in every interleaving a message due to a reconnected client was replayed, taken by its channel, found it full, or is being offered |
| `SseHub.DropsOnlyWhenFull` | internal/sse/sse.go:202-222 | a message is dropped for a client only when its channel is full, and nothing in the channel is lost with it |
| `SseHub.OnlyOwnAudience` | internal/sse/sse.go:228-237 | nothing outside its audience ever reaches a client and nothing user-targeted is replayed |
| `SseHub.ReadsInOrder` | internal/sse/sse.go:202-222 | each client's channel yields bus messages in recorded order, each at most once, also while user-targeted messages are sent beside them (lines 398-419) |
| `SseHub.SeenTwiceIff` | internal/sse/sse.go:326-339 | a message past its fan-out and not dropped reaches a client both by replay and by channel iff it was recorded, or awaiting fan-out, after the client was added and before it was replayed, is newer than what the client has, was still in the ring and is meant for it |
| `SseHub.SeenTwice` | internal/sse/sse.go:326-339 | an instance |
| `SseHub.ReplayGives` | internal/sse/sse.go:280-290 | from every reachable state a resuming client gets, in ascending order, exactly the ring's messages after its id that are for everybody or one of its organisations |
| `SseHub.LogIsHandedIn` | internal/sse/sse.go:202-222 | in every interleaving the log is what the pump was handed, text and organisation, once each and in order |
| `SseHub.ChannelsChangeOnlySo` | internal/sse/sse.go:202-222 | a channel grows only at its end, by the message being fanned out or one targeted at its user, never past its capacity; it shrinks only as its client reads |
| `SseHub.TargetedIsSent` | internal/sse/sse.go:398-419 | a user-targeted message enters a channel of its user that has room |
| `SseHub.FanOutNeverBlocks` | internal/sse/sse.go:202-222 | in every interleaving a fan-out under way can take its next step alone and gets done |
| `EventBus.NeverPanics` | internal/event/event.go:87-93 | no interleaving of Publish, Subscribe and any number of Close calls sends on a closed channel or closes one twice |
| `EventBus.EveryEventIsAccountedFor` | internal/event/event.go:157-172 | each matching event published while subscribed was read, is buffered, was dropped or is pending: exactly one of these, once |
| `EventBus.QuietBusBalances` | internal/event/event.go:157-172 | with no Publish running, due = received + buffered + dropped as multisets |
| `EventBus.ReadsAPrefix` | internal/event/event.go:127-142 | what is received is a prefix of what was enqueued, before and after Close |
| `EventBus.PublishNeverBlocks` | internal/event/event.go:152-172 | a running Publish can always take its next step alone and gets done |
| `EventBus.ClosedStaysClosed` | internal/event/event.go:146-150 | after Close nothing more enters the channel, in any continuation |
| `EventBus.PublishAlone` | internal/event/event.go:157-172 | a Publish taken as its steps without interruption, in any visiting order, has the effect of the fan-out loop |
| `EventBus.Registry.Publish` | internal/event/event.go:157-172 | the fan-out loop offers the event exactly once to every registered subscriber and touches no other |
| `EventBus.Registry.Subscribe` | internal/event/event.go:127-142 | registers an empty channel of the given capacity, or of 64 |
| `EventBus.PublishReachesSubscribed` | internal/event/event.go:61-75 | a publication that starts is pending for exactly the undetached subscribers whose organisation and name filters it passes |
| `EventBus.SendEntersOrDrops` | internal/event/event.go:157-172 | an event sent goes behind what is in the channel if there is room and is dropped otherwise; no other subscriber changes |
| `JobPool.JobStore.Claim` | internal/db/queries/jobs.sql:11-17 | succeeds iff the job is queued and due, and then marks it running for the caller |
| `JobPool.JobStore.Work` | internal/job/pool.go:186-215 | one turn of the worker loop claims, runs and settles a job as the state machine does; what that leaves is stated by the next rows |
| `JobPool.OneWorkerPerJob` | internal/job/pool.go:186-197 | with any workers and stale lists a running job has exactly one worker, or its outcome was lost; any other job has none |
| `JobPool.RunsAreBounded` | internal/job/pool.go:199-209 | a job's handler runs at most max(1, MaxAttempts) times, exactly that often once dead, fewer while queued |
| `JobPool.FinishedIsFinal` | internal/db/queries/jobs.sql:19-32 | a succeeded, dead or lost job never runs again and never changes |
| `JobPool.QueuedUntilDue` | internal/db/queries/jobs.sql:11-17 | a queued job is unchanged until its run_at |
| `JobPool.RetryWaits` | internal/job/pool.go:199-209 | a failed run with attempts left requeues the job, and nobody claims it for 30 seconds |
| `JobPool.HandlerRunsWithinBudget` | internal/job/pool.go:159-215 | over any run all handler starts together stay within the sum of max(1, MaxAttempts) |
| `JobPool.SpentAndLeft` | internal/job/pool.go:159-215 | handler starts so far plus runs left equal what was enqueued |
| `JobPool.SuccessIsFinal` | internal/job/pool.go:199-215 | a run recorded as successful leaves the job succeeded and unlocked whatever attempts were left, and it never runs again |
| `JobPool.LastFailureIsFinal` | internal/job/pool.go:199-209 | a failed last attempt leaves it dead, and it never runs again |
| `JobPool.FailureIsRetried` | internal/job/pool.go:199-209 | a failure with attempts left queues it again with one attempt more, 30 seconds later, and changes nothing else |
| `JobPool.DueIsClaimed` | internal/job/pool.go:186-197 | a worker gets the job it tries iff it is queued and due, and runs it once more |
| `JobPool.ChangesOnlySo` | internal/db/queries/jobs.sql:11-32 | a job changes only by being claimed when due or by its own worker recording the outcome: succeeded iff the run was, dead iff it failed with no attempt left |
| `RateLimit.Limiter.Sweep` | internal/ratelimit/ratelimit.go:107-114 | drops exactly the buckets that have refilled |
| `RateLimit.Limiter.EvictOne` | internal/ratelimit/ratelimit.go:119-124 | drops one arbitrary bucket if there is one |
| `RateLimit.Limiter.Allow` | internal/ratelimit/ratelimit.go:68-96 | the call is one step of the specification, for some choice of victim; what a step grants is `RateLimit.StepBalances` |
| `RateLimit.TableIsBounded` | internal/ratelimit/ratelimit.go:78-85 | over any run at most max(1, maxKeys) buckets are held |
| `RateLimit.AnswersLikeUnswept` | internal/ratelimit/ratelimit.go:105-114 | a key that is not evicted gets every answer, wait included, that a limiter forgetting nothing would give |
| `RateLimit.WindowIsBounded` | internal/ratelimit/ratelimit.go:68-96 | calls accepted for a key in any window number at most burst + rate * length + burst * its evictions; none with a burst below 1 |
| `RateLimit.AuditedSum` | internal/ratelimit/ratelimit.go:68-96 | tokens held plus calls accepted never exceed opening balance, time earned and evictions |
| `RateLimit.StepBalances` | internal/ratelimit/ratelimit.go:68-96 | with equality: a call is accepted iff min(burst, held + earned) is at least 1 and then takes exactly one token; a key that neither calls nor is evicted keeps all it has |
| `RateLimit.RefusedHadItsShare` | internal/ratelimit/ratelimit.go:68-96 | the converse of WindowIsBounded: every refused call ends a window without eviction of its key in which accepted + 1 > burst + rate * length |
| `RateLimit.BurstAtOnce` | internal/ratelimit/ratelimit.go:78-96 | of calls at one instant a key with a full bucket gets exactly the first floor(burst) |
| `RateLimit.EvictionNeedsFullTable` | internal/ratelimit/ratelimit.go:78-85 | a key is evicted only for another key that holds nothing, when maxKeys buckets that have not refilled are held |
| `RateLimit.WaitIsExact` | internal/ratelimit/ratelimit.go:88-92 | the next call is refused before now + wait, accepted after it, and accepted at it iff nothing was truncated |
| `RateLimit.ComingBackWorksIff` | internal/ratelimit/ratelimit.go:129-158 | a refused key that comes back when Retry-After says, not evicted and unused in between, is accepted iff nothing was truncated or the wait is not a positive whole number of seconds |
| `RateLimit.RetryAfterSuffices` | internal/ratelimit/ratelimit.go:152-158 | the rounded header covers the exact wait in just those cases |
| `RateLimit.RetryAfterCanBeEarly` | internal/ratelimit/ratelimit.go:152-158 | a run in which it is not |
| `RateLimit.RetryAfter` | internal/ratelimit/ratelimit.go:152-158 | the least whole number of seconds, at least 1, that covers the wait |
| `ReplayCache.Cache.constructor` | internal/auth/replay.go:25-30 | an empty cache of the given size, or of 10000 |
| `ReplayCache.Cache.Use` | internal/auth/replay.go:40-59 | refuses iff the id is live or max live ids are held, and stays within max |
| `ReplayCache.AnswersLikeMemory` | internal/auth/replay.go:40-59 | over runs with a clock that never goes back it answers as a cache that forgets nothing |
| `ReplayCache.SizeIsBounded` | internal/auth/replay.go:40-59 | never more than max ids |
| `ReplayCache.AcceptedOnceWhileLive` | internal/auth/replay.go:38-59 | an accepted id is not accepted again before its expiry |
| `ReplayCache.OpensBeforeExpiry` | internal/auth/flow.go:192-201 | a flow opens iff the clock is before the instant its challenge is recorded until |
| `ReplayCache.ChallengeIsSpentOnce` | internal/auth/passkey_handler.go:181-190 | with one instant per request a challenge is accepted at most once ever |
| `ReplayCache.SpentAgainIff` | internal/auth/passkey_handler.go:184-190 | with two instants, and room in the cache, a spent challenge passes again iff it is spent at or after the flow's expiry |
| `ReplayCache.SpentTwice` | internal/auth/passkey_handler.go:184-190 | an instance with both attempts opened in time |
| `ReplayCache.NewChallengeIsAccepted` | internal/auth/passkey_handler.go:181-190 | a challenge not presented before is accepted, whatever others were, iff fewer than max live ids are held |
| `Dispatch.Dispatcher.Dispatch` | internal/action/dispatch.go:115-268 | the pipeline in its order is one step of the specification; what a step lets through and leaves is stated by the next rows |
| `Dispatch.Dispatcher.Run` | internal/action/dispatch.go:273-294 | a handler error or failed commit leaves the database as it was |
| `Dispatch.RecordedKeyIsFinal` | internal/action/dispatch.go:199-209 | once a key is recorded no later call with it runs a handler, and each that passes the checks gets the recorded payload |
| `Dispatch.KeyRunsOnce` | internal/action/dispatch.go:199-236 | over every interleaving of lookups, commits and stores without an overlapping miss or a lost run, a key runs at most once, and once if recorded |
| `Dispatch.SecondRunMeansOverlap` | internal/action/dispatch.go:199-236 | a second run means an overlapping miss or a lost run; a commit that finds its key recorded means an overlapping miss |
| `Dispatch.RecordStands` | internal/action/dispatch.go:231-236 | over every interleaving a record never changes |
| `Dispatch.CallAlone` | internal/action/dispatch.go:199-267 | the three acts of an uninterrupted call are one step of the sequential form |
| `Dispatch.CallsAloneRunOnce` | internal/action/dispatch.go:199-236 | over calls that do not overlap, all recorded, a key has run exactly once if recorded and never otherwise |
| `Dispatch.UnrecordedIff` | internal/action/dispatch.go:218-236 | a call leaves a run unrecorded iff it passes the checks, misses, its handler commits, and its result does not marshal or cannot be stored |
| `Dispatch.OverlapRunsTwice` | internal/action/dispatch.go:199-236 | two misses of one key in flight together both run if both handlers succeed; the one stored later is refused and the first record stands |
| `Dispatch.DryRunChangesNothing` | internal/action/dispatch.go:189-197 | a remark: a dry run executes, records, emits and audits nothing |
| `Dispatch.PrivateResultsStayPrivate` | internal/action/dispatch.go:238-252 | over every run, events of private-result and self-scope actions carry no payload, and self-scope ones no organisation |
| `Dispatch.SecretsLeaveNoTrace` | internal/action/dispatch.go:217-267 | two whole runs whose handlers agree up to redaction leave the same idempotency records, events and audit log and differ only in secrets returned |
| `Dispatch.HandlerRunsIff` | internal/action/dispatch.go:115-215 | a handler runs to a commit iff the actor is known, the action registered and in shape, the input valid, the scope resolved, the permission granted, an agent approved, it is no dry run, no record answers it, and handler and commit succeed |
| `Dispatch.RefusedWithoutTrace` | internal/action/dispatch.go:115-187 | a call not permitted is refused and changes nothing, but for a row of an agent's approval gate |
| `Dispatch.DeniedIsForbidden` | internal/action/dispatch.go:164-170 | a call that lacks only the permission is answered Forbidden and changes nothing |
| `Dispatch.FailureWithoutTrace` | internal/action/dispatch.go:273-294 | a handler that errs, or whose transaction does not commit, leaves database, records, events and audit log as they were |
| `Dispatch.OnlyPermittedRun` | internal/action/dispatch.go:115-215 | over every interleaving, a call in flight or run was looked up in a state in which it was permitted |
| `Dispatch.ActAdmits` | internal/action/dispatch.go:199-215 | a lookup lets a call through iff it is permitted and unrecorded; only commits of calls in flight run handlers |
| `Dispatch.ErrorsSayWhy` | internal/action/dispatch.go:115-268 | each error answer implies its cause |
| `Dispatch.DryRunAnswers` | internal/action/dispatch.go:189-197 | a permitted dry run is answered by the preview, or else by its own input |
| `Dispatch.SuccessIsPublished` | internal/action/dispatch.go:217-268 | a call without faults returns its result to the caller and leaves its redacted form under its key, in one event, and in the audit log iff it is of high impact or an agent's |
| `Dispatch.StoreIsPublished` | internal/action/dispatch.go:217-268 | the same for a run stored among other calls |
| `RemoveTags.RemoveTag` | internal/storage/storage.go:232-271 | the scanning loops compute Removed, and the self-closing branch is unreachable |
| `RemoveTags.RemovedIsSubsequence` | internal/storage/storage.go:232-271 | the output is a subsequence of the input, for any bytes and tag |
| `RemoveTags.TextComesFromInput` | internal/storage/storage.go:232-271 | text whose only slash comes first and which occurs in the output occurs in one piece in the input, where no opening tag starts |
| `RemoveTags.NoOpeningLeft` | internal/storage/storage.go:232-271 | for a tag without a slash the output holds neither "<tag " nor "<tag>" |
| `RemoveTags.OtherPassAddsNoOpening` | internal/storage/storage.go:221-224 | removing another tag brings no opening tag back |
| `RemoveTags.BothPassesLeaveNeitherTag` | internal/storage/storage.go:216-224 | after the two tag passes neither element has an opening tag left |
| `RemoveTags.UnchangedIff` | internal/storage/storage.go:232-271 | the output equals the input iff no opening tag occurs in it |
| `RemoveTags.SkipEndsAtBalance` | internal/storage/storage.go:241-259 | a removed stretch ends at the first position where opening and closing tags balance, or at the end of the input |
| `RemoveTags.TailStaysIff` | internal/storage/storage.go:241-259 | at an opening tag the output goes on with the tail of the closing tag, then the rest, iff the tags balance before the end of the input; otherwise nothing follows |
| `RemoveTags.KeptUpToFirst` | internal/storage/storage.go:232-271 | up to the first opening tag the input is kept as it is |
| `RemoveTags.ElementLeavesItsTail` | internal/storage/storage.go:247-259 | an element with any attributes goes with all text and elements of its name nested in it, and is replaced by the tail of its closing tag |
| `RemoveTags.SkipMarkup` | internal/storage/storage.go:241-259 | balanced markup leaves the nesting depth as it is |
| `Claims.LookupClaim` | internal/auth/claims.go:15-35 | the recursive loop computes Find, and terminates on the length of the path |
| `Claims.FoundIffSomeSplitResolves` | internal/auth/claims.go:15-35 | a lookup succeeds iff some split of the path at dots into non-empty keys resolves |
| `Claims.LongestKeysWin` | internal/auth/claims.go:13-35 | the answer is that of the one split preferred, longest key first at each level, to every other that resolves |
| `Claims.ClaimGroups` | internal/auth/claims.go:53-89 | the list is strictly ascending and holds exactly the trimmed non-empty group values of the claim found |
| `Claims.GroupsComeFrom` | internal/auth/claims.go:53-78 | the groups are the trimmed non-empty text, the texts and printed values of a list, or the field names of an object |
| `Claims.AscendingIsUnique` | internal/auth/claims.go:79-88 | only one such list exists, so map iteration order never shows |
| `Csv.TableReadsBack` | internal/report/csv.go:8-15 | a table of any fields, quoted where needed, reads back exactly |
| `Csv.QuotingIsShortest` | internal/report/csv.go:10-15 | no shorter text reads as the same table |
| `Csv.ReadsBackIff` | internal/report/csv.go:46-64 | a table reads back iff no column written as it is holds a comma, quote or line feed |
| `Csv.TaskExportReadsBackIff` | internal/report/csv.go:56-64 | the export of tasks reads back iff project ids and timestamps hold none |
| `Csv.DistributionsReadBack` | internal/report/csv.go:46-53 | the report by project, header included, reads back whatever the projects are called |
| `Csv.CsvTasks` | internal/report/csv.go:56-64 | the loop prints the header and one row per task |
| `Csv.QuotedReadsBack` | internal/action/cost_controls.go:222-227 | a quoted field with doubled quotes reads back as the field and stops at its closing quote |
| `Csv.Decimal` | internal/report/csv.go:46-53 | printed integers never need quotes |
| `Csv.DecimalReadsBack` | internal/report/csv.go:46-64 | a printed integer denotes what was printed |
| `Csv.TaskFieldsReadBack` | internal/report/csv.go:56-64 | reading an export back finds every field of every task under the name of its column |
| `Csv.DistributionFieldsReadBack` | internal/report/csv.go:46-53 | the same for the report by project |
| `ReturnTo.SafeReturnTo` | internal/auth/returnto.go:25-53 | the loop accepts iff the value is short, decodes plainly within two rounds and net/url finds it local; otherwise it returns the default |
| `ReturnTo.EveryDecodingIsPlain` | internal/auth/returnto.go:20-53 | every iterate of percent-decoding the result, any number of times, is a plain local path |
| `ReturnTo.PlainBytes` | internal/auth/returnto.go:54-71 | a plain local path has one leading slash and no backslash, control byte or fragment, however its bytes form runes |
| `ReturnTo.SafeIsIdempotent` | internal/auth/returnto.go:14-19 | checking again changes nothing |
| `ReturnTo.DeepEncodingIsRefused` | internal/auth/returnto.go:29-46 | a value still changing after two rounds is refused |
| `ReturnTo.DecodingShortens` | internal/auth/returnto.go:37-46 | a round of decoding fails, shortens the text, or finds no percent sign |
| `ReturnTo.ChainSettles` | internal/auth/returnto.go:31-46 | from any text decoding fails or reaches a fixpoint within as many rounds as it has bytes |
| `ReturnTo.AsciiIsItsOwnRune` | internal/auth/returnto.go:60-69 | every ASCII byte is seen as its own rune, also in malformed UTF-8 |
| `ReturnTo.DecodingUndoesEncoding` | internal/auth/returnto.go:37-46 | decoding undoes percent-encoding of any byte string, whichever bytes are encoded and in either case of hex digits |
| `ReturnTo.DecodedIsEncoding` | internal/auth/returnto.go:37-46 | conversely whatever decodes to a text is an encoding of it |
| `ReturnTo.RunesReadBack` | internal/auth/returnto.go:60-69 | ranging over UTF-8 (section 3 of RFC 3629) gives the code points back |
| `ReturnTo.RuneIsUtf8` | internal/auth/returnto.go:60-69 | conversely a rune other than the replacement stands there in UTF-8, shortest form and no surrogate |
| `ReturnTo.OrdinaryPathIsKept` | internal/auth/returnto.go:25-53 | plain ASCII text after a single slash, with nothing to decode, is let through |

## Left out

- user.delete and SCIM deprovisioning remove memberships with no owner guard of this kind; they are not steps of `LastOwner`.
- Membership changes by administrators are steps of `LastOwner`; `Accounts` has the memberships that sign-in and invites create.
- Toggling passkeys_enabled is not a step of `Accounts`; what it would cost is `Accounts.PasskeysOffNeedsIdentities`.
- Cryptography, WebAuthn, OIDC and SAML verification: their results are inputs; hashes and seals are compared as values.
- SQL is not interpreted: each query is the condition and update its text states, and constraints are invariants.
- HTTP, cookies, templates, SSE framing, heartbeats, metrics and log lines.
- Float rounding in the rate limiter; a rate of 0 or less, for which the wait is not a number of nanoseconds.
- JobStore.Requeue has no caller outside tests, and it resets jobs of any status; it is not a step of `JobPool`.
- Recovery of a job whose worker died: the code has none, so such a job is `lost` in `JobPool`.
- The order in which ListQueued returns jobs; a worker's list is any 25 or fewer due jobs.
- A nil database in the dispatcher, and the contents of the permission, scope and approval hooks, which are parameters of `Dispatch`.
- stripEventAttrs, the third pass of the SVG clean-up, whose intended end result the code does not fix. It joins the text around what it removes, so an upload's final form may hold an opening tag that neither tag pass left.
- `RemoveTags.BothPassesLeaveNeitherTag`: speaks of the two tag passes, before stripEventAttrs.
- CSVFlow, CSVBurndown and the usage reports, which print with the same quoting and no further structure.
- `Claims.ClaimGroups`: sort.Strings is replaced by insertion; its result is the same by `Claims.AscendingIsUnique`.
- `Csv.CsvTasks`: formatting verbs are modelled by printing a row of cells.
- What net/url accepts is a parameter of `ReturnTo.SafeReturnTo`; it is only assumed to accept the default path.
- Agent runs, their caps and their approval resume, which share the job table.
