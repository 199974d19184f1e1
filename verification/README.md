# Janus: sessions, tokens, codes and keys

Janus is an identity server. Sessions open in six places, refresh tokens rotate
without a transaction, a five-minute cache in Redis stands in for four table
reads, a worker deletes old rows under a foreign key, and signing keys rotate
while tokens are being issued. What the server promises is spread over all of
that and depends on a clock. This project models it at two granularities and
proves the promises of every reachable state.

* **Interleaved** (`SessionProtocol` with `SessionGuarantees` and `HeaderAcceptance`, `MfaProtocol`
  with `MfaGuarantees`, `KeyProtocol`, `CodeProtocol`, `Snapshots`): each repository, Redis or clock access is a step of its own, and
  the steps of different requests interleave freely. A list of events is a run;
  an event that is not enabled changes nothing, so theorems hold of every list.
  Requests can abandon their work at any step, keys can vanish from Redis early,
  and cache deletes and writes can fail.
* **Atomic** (`Requests`): each request is one step over the whole state, with a
  parameter for the accesses that fail. `Effects` reduces every request
  to one of five effects on the session table; `SerialRotation`, `Coverage`,
  `CleanupInvisible`, `Invalidation`, `MfaGating` and `Ownership` prove what
  holds of every run of requests. `Answers`, `AuthAnswers`, `CodeGrants`,
  `RefreshTokens` and `Upkeep` say, in every reachable state (`Ground`), what each
  request is answered, exactly when, and what it leaves behind, with every
  condition written out.

`Granularity` proves that the steps of one request, uninterrupted, do what the
atomic request does; `Siblings`, `BlockedCleanup`, `LateTokens` and `Witnesses`
exhibit what the code does not prevent. `Server` holds the use cases as the source writes them,
statement by statement over repository and store objects (`Sessions`, `Stores`,
`Totp`, `Tokens`, `Keys`, `Registration`), each proved to do to the whole state
exactly what its atomic request does, so that a server begins in a reachable
state and never leaves the reachable ones. `Directory` and `Registration` are the
tenant, user, role and permission tables and the transactions over them.
`Base64`, `Passwords`, `BigEndian` and `Scopes` are the codecs.

## Assumptions

* One monotone clock, in microseconds, for the processes, Postgres and Redis.
* Row ids and random tokens are never drawn twice; a request that would repeat a
  draw does not happen.
* SHA-256 of a refresh token is injective (`Digest`), signatures are ideal (what
  verifies is what was issued), Argon2 and the S256 digest are functions given
  as parameters, and whether a one-time code fits a secret, a password fits its
  hash or a WebAuthn assertion verifies is an input.
* In the interleaved models `delay` bounds, inside one request, the time between
  a read and the write or stamp that relies on it. The bounds are stated in it.
* Administration moves the directory tables to any consistent tables grown from
  before; every operation of `Registration` is proved to do just that.

## What the proofs bring out

* **Cleanup can be blocked for everybody.** `parent_session_id` has no ON DELETE
  clause, so deleting a row with a kept child is refused, and the statement is
  all or nothing. One family that keeps rotating, once it has an ancestor past
  the cutoff, keeps every old row of every family (`Sessions.CleanupDecides`,
  `Sessions.UsableFamilyBlocksCleanup`). With one user who refreshes every six
  days, cleanups begun and finished anywhere in the run never delete a row, for as
  long as one likes (`BlockedCleanup.CleanupCanBeBlocked`).
* **Overlapping refreshes fork.** Lookup and revocation are separate statements:
  two refreshes that both look a session up before either revokes it both
  succeed (`Siblings.RotationCanFork`). Exactly when a session can still get a
  child is `Siblings.FurtherChildIff`: it is usable, or a refresh that looked it up
  while it was has not inserted yet. One live session to a family is a property
  of requests served one at a time only (`SerialRotation`).
* **Overlapping rotators leave two active keys**, and the active keys are exactly
  those inserted since the last deactivation; an insert leaves one active key
  exactly when none is active just before it (`KeyProtocol`).
* **The refresh grant leaves the cache alone.** Where `/refresh` and `/logout`
  are immediate for the session header as long as requests are served one at a
  time, the OAuth refresh grant lets the cache entry live out its time, no longer,
  and no shorter unless that very session is logged out (`Invalidation`), and there
  are states where that lets the replaced session in
  (`Witnesses.GrantedSessionStillAccepted`). The comment
  in `internal/auth/middleware/principal_cache.go:16` names logout as the only
  explicit delete; the code of `/refresh` deletes too, and the model follows the
  code.
* **A logout can be outrun.** Between its row read and its cache write a header
  request can be overtaken by a logout, and then it fills the cache the logout has
  emptied (`HeaderAcceptance.LogoutCanBeOutrun`). After the delete the header is
  accepted in some continuation exactly when a header request that read the row
  while it was usable is still within `delay` (`HeaderAcceptance.AfterForgetIff`).
* **So can the verification of a factor.** Login reads policy and factors, and
  inserts later: while no factor is removed, and whatever becomes of the policies,
  a password alone can still open a session exactly when no factor is verified or a
  login is past that read (`MfaGuarantees.PasswordCanSufficeIff`,
  `MfaGuarantees.VerificationCanBeOutrun`). With the policies left as they are, a
  login that read one before it began to require a second factor counts too
  (`MfaGuarantees.PasswordCanSufficeAsIff`).
* **Cleanup cannot be observed, by logout either.** On its own the logout use case
  can tell (`Witnesses.LogoutAloneCanTell`; exactly when, in
  `CleanupInvisible.LogoutAloneTells`), but the endpoint authenticates first, and
  whoever authenticates has a row the cleanup spares
  (`CleanupInvisible.CleanupUnobservable`).
* **A broken-off query reads as a shorter list.** The row loops of the role and
  permission joins return without asking whether the result ended or broke off,
  so a principal holds fewer grants than the tables give it exactly when too few
  rows arrive, and never more (`Registration.Database`, `Snapshots`).
* A second revocation of one row overwrites `revoked_at`; the bounds are stated
  from the first.

## Model

| member | source | states |
|---|---|---|
| SessionGuarantees.RevocationBound | internal/auth/middleware/authentication.go:44-143 | in every interleaved run, nobody is let through as a revoked session more than 15 minutes and a delay after its first revocation, by table, cache or token, whatever raced the revocation and even if cache deletes fail |
| LateTokens.RevocationBoundIsReached | internal/token/app/jwt_service.go:36-71 | and the bound is tight: for every delay some run lets a bearer through as a revoked session within the last second of it |
| SessionGuarantees.HeaderIsRecent | internal/auth/middleware/authentication.go:89-143 | whoever the session header lets through was seen in the table, unrevoked, unexpired and with the owner the table still has, no earlier than 5 minutes and a delay ago |
| SessionGuarantees.CacheCoveredByTable | cmd/worker/main.go:27-30 | in every interleaved run a live cache entry names a row that still exists, with the same owner, given delay and cache lifetime below the retention |
| SessionGuarantees.RotationForest | internal/auth/app/refresh.go:62-106 | parent links always resolve, never form a cycle, keep the owner, and every ancestor of a session is revoked |
| SessionGuarantees.CleanupSparesUsable | internal/session/infra/postgres/repository.go:172-182 | a row a cleanup deletes was not usable, however long ago the cleanup read its cutoff |
| SessionGuarantees.RefreshDecidedAtLookup | internal/auth/app/refresh.go:62-73 | with any interleaving between lookup and check, a refresh passes its checks if and only if the session was never revoked at the lookup and is unexpired at the check |
| SessionGuarantees.RotationCompletes | internal/auth/app/refresh.go:75-106 | a refresh past its checks revokes the parent, forgets the cache entry only on `/refresh`, and inserts a child with the parent's owner and device |
| SessionGuarantees.OverlappingRefreshesFork | internal/auth/app/refresh.go:62-106 | from any state with two refreshes of one session past their checks, both children end up live |
| Siblings.RotationCanFork | internal/auth/app/refresh.go:62-106 | such a state is reachable: some run ends with two live children of one session |
| Siblings.FurtherChildIff | internal/auth/app/refresh.go:62-106 | in every reachable state, some continuation adds a child to a session if and only if it is in the table and either still usable or carried by a refresh that passed, or still passes, its check on what it looked up |
| Siblings.FurtherChildAfterRevocationIff | internal/auth/app/refresh.go:62-106 | once a session is revoked, some continuation adds a child if and only if a refresh under way still carries it |
| BlockedCleanup.CleanupCanBeBlocked | migrations/000001_init_schema.up.sql:129 | one login and n refreshes six days apart, with cleanups begun and finished anywhere between or inside them: at the end every session ever inserted is still in the table, and all but the last seven are past retention |
| BlockedCleanup.WovenRun | cmd/worker/main.go:75-101 | where no cleanup has anything to delete, cleanups woven into a run anywhere change nothing but their own requests under way |
| BlockedCleanup.CleanedThroughoutWeaves | cmd/worker/main.go:75-101 | a cleanup after every single event of a user's run is one such weaving |
| HeaderAcceptance.HeaderAcceptedIff | internal/auth/middleware/authentication.go:89-143 | in every reachable state, some continuation accepts the header of a session if and only if its row is usable, its cache entry is live, or a header request that read the row while it was usable is within `delay` |
| HeaderAcceptance.AfterForgetIff | internal/auth/app/logout.go:36-50 | after the working cache delete of a logout or a `/refresh` that revoked the session, some continuation accepts its header if and only if such a header request is under way |
| HeaderAcceptance.LateForgetIsFinal | internal/auth/app/refresh.go:75-80 | a delete later than `delay` after the first revocation is final: the header is refused in every interleaved continuation |
| HeaderAcceptance.LogoutCanBeOutrun | internal/auth/middleware/authentication.go:89-143 | some interleaved run accepts the header of a session after a logout of it has deleted its cache entry |
| Granularity.UninterruptedRefresh | internal/auth/app/refresh.go:59-148 | the steps of a refresh, uninterrupted, leave table, cache and tokens as the atomic rotation does, refused when it is refused, whether or not the token has a row |
| Granularity.UninterruptedLogout | internal/auth/app/logout.go:30-50 | the same of logout |
| Granularity.UninterruptedHeader | internal/auth/middleware/authentication.go:89-143 | a session header, hit or miss, is accepted in both models or in neither, with the same cache afterwards |
| Granularity.UninterruptedOpening | internal/auth/app/login.go:156-184 | the same of the insert and token that open a session |
| Granularity.UninterruptedCleanup | cmd/worker/main.go:79-89 | the same of the cleanup |
| SerialRotation.AtMostOneChild | internal/auth/app/refresh.go:67-106 | with atomic requests a session has at most one child |
| SerialRotation.AtMostOneLiveInFamily | internal/auth/app/refresh.go:67-106 | two unrevoked sessions that share an ancestor, however far back, are the same session |
| SerialRotation.LifetimeByDepth | internal/auth/app/refresh.go:91-102 | every session lives exactly 7 days from creation, and k rotations below an ancestor it expires no later than 7(k+1) days after the ancestor was created |
| Effects.HandleEffect | internal/session/infra/postgres/repository.go:21-182 | every request does one of five things to the session table, under the checks that belong to it, and hands out a token only for a session it just inserted |
| RefreshTokens.AnswerNamesTheSession | internal/auth/app/refresh.go:82-148 | whichever of the six paths opens a session: the session in the answer is new and stored under the answer's owner and the hash of the answer's refresh token, which no other row has; it lives 7 days, and a 15-minute access token for it is issued |
| RefreshTokens.RefreshTokenWorksIff | internal/auth/app/refresh.go:59-106 | whatever is requested in between, the token handed out by any path can be refreshed with, nothing failing, if and only if 7 days have not passed and its session has not been revoked; the row is there for those 7 days |
| Answers.LoginTurnedAwayIff | internal/auth/app/login.go:89-102 | a login is answered invalid credentials, and changes nothing, if and only if nobody has the e-mail, the password is wrong, or one of those lookups fails |
| Answers.LoginAnswer | internal/auth/app/login.go:104-201 | with e-mail and password right: a challenge for five minutes if and only if some factor of the identity is verified, enrollment required if and only if none is and the tenant requires one, a session if and only if neither; with exactly the rows, the owner and the device, and under exactly which failures |
| Answers.ChallengeCanBeCompleted | internal/mfa/app/complete.go:65-112 | whenever login answers with a challenge, some code completes it into a session of the same owner |
| Answers.CompletionAnswer | internal/mfa/app/complete.go:65-138 | a completion opens a session, for the challenged owner and device, if and only if the challenge is in the store and the code fits the secret of a verified TOTP factor of that identity; the challenge is gone either way |
| Answers.OnlyOwnSecretsComplete | internal/mfa/app/totp.go:79-93 | a code that fits none of the identity's own verified secrets is refused, whatever other secret it fits |
| Answers.WebauthnAnswer | internal/webauthn/app/login_complete.go:61-129 | a WebAuthn login opens a session if and only if the assertion was verified and nothing fails |
| Answers.WebauthnOwner | internal/webauthn/app/login_complete.go:61-129 | and for the user row of the identity whose credential it was |
| Answers.RefreshTurnedAwayIff | internal/auth/app/refresh.go:62-73 | a refresh or refresh grant is turned away, and changes nothing, if and only if no unrevoked and unexpired session has the token or the lookup fails |
| Answers.RefreshAnswer | internal/auth/app/refresh.go:75-148 | otherwise the session is revoked, even when the child then fails, and the child has its owner, its device, the new token and 7 days; only `/refresh` drops the cache entry |
| AuthAnswers.BearerDecides | internal/auth/middleware/authentication.go:44-87 | a bearer token that was issued, is in its time and whose key can be read decides session and owner, whatever session header comes with it |
| AuthAnswers.HeaderAnswer | internal/auth/middleware/authentication.go:89-143 | without such a token the header is accepted if and only if the principal is cached, or the row is unrevoked, unexpired and readable; for the row's owner, who is then cached for 5 minutes |
| AuthAnswers.LogoutAnswer | internal/auth/app/logout.go:30-50 | a logout acts for whom any request with the same credentials acts for, succeeds if and only if the row can be read and is or can be revoked, and leaves it revoked and, with a working cache, uncached |
| CodeGrants.AuthorizeAnswer | internal/oauth/app/authorize.go:54-115 | a code is issued if and only if response type, PKCE, client, redirect URI, grant type, each scope and the tenant are in order; it says for whom and for what, and lives 10 minutes |
| CodeGrants.AuthorizeRefusal | internal/oauth/app/authorize.go:54-90 | and which of the checks is reported when several fail |
| CodeGrants.ExchangeAnswer | internal/oauth/app/token.go:91-194 | an exchange opens a session if and only if the client is known, its secret right if it is confidential, the code in the store, and client, redirect URI and S256 of the verifier are the code's; a code whose client was authenticated is gone either way |
| CodeGrants.ExchangeGoesBack | internal/oauth/app/token.go:105-123 | in every run, an exchange that opened a session goes back to exactly one authorize request, by the same owner, for the same client and redirect URI, with a challenge the verifier answers, less than 10 minutes before; the response scope reads back as the one asked for |
| Upkeep.CleanupAnswer | internal/session/infra/postgres/repository.go:172-182 | cleanup deletes exactly the rows that expired or were revoked more than 30 days ago, or nothing if a row kept would lose its parent |
| Upkeep.FactorAnswer | internal/mfa/app/totp.go:35-97 | a factor is enrolled unverified and of type totp, verified by a code that fits its own secret and by nothing else, and gone once removed |
| Upkeep.TickAnswer | internal/auth/middleware/principal_cache.go:22-30 | as time passes exactly the keys whose deadline it reaches disappear |
| Coverage.CacheAndTokensAgreeWithTable | internal/auth/middleware/principal_cache.go:14-60 | with atomic requests every cache entry covers a row that exists, has the same owner and was usable at most 5 minutes ago, and a token agrees with its row and dates from its creation |
| CleanupInvisible.CleanupUnobservable | internal/session/infra/postgres/repository.go:172-182 | from every reachable state, every later sequence of requests, logouts included, is answered the same with the cleanup and without |
| CleanupInvisible.RunsWithoutCleanup | cmd/worker/main.go:75-101 | dropping every cleanup from a run changes no answer to any other request |
| Witnesses.LogoutAloneCanTell | internal/auth/app/logout.go:31-41 | in some reachable state the logout use case by itself reports success, and not found if a cleanup comes first |
| Invalidation.LogoutIsImmediate | internal/auth/app/logout.go:30-50 | with requests served one at a time, after a logout with a working cache, no later session-header request for that session is accepted, in any continuation and under any fault |
| Invalidation.RefreshIsImmediate | internal/auth/app/refresh.go:75-80 | the same, served one at a time, after a `/refresh` that got past its revocation, even one that then failed |
| Invalidation.GrantLeavesTheCacheEntry | internal/oauth/app/token.go:196-232 | after an OAuth refresh grant and any later requests, the old session's header is accepted if and only if it was cached at the grant, that entry, at most 5 minutes long, has not expired, and no logout of that very session has been answered with the cache working |
| Witnesses.GrantedSessionStillAccepted | internal/oauth/app/token.go:196-232 | in some reachable state a refresh grant is answered with a new session, and the header of the one it replaced is accepted right after |
| MfaGating.PasswordSessionsAreUngated | internal/auth/app/login.go:89-140 | every session a password alone opened goes back to a login with the e-mail and the right password of its identity, at which that identity had no verified factor and its tenant required none |
| MfaGating.MfaSessionsHaveTwoFactors | internal/mfa/app/complete.go:65-112 | every session from an MFA completion goes back to an earlier login with the right password of the same identity, at most 5 minutes before, and a code that fits a verified TOTP factor |
| MfaGating.ChallengesOpenOneSession | internal/mfa/app/challenge_store.go:42-55 | no challenge ever stands behind two sessions |
| MfaGating.AnyFactorIsTotp | internal/mfa/app/totp.go:79-93 | an identity has a verified factor, which login asks for, if and only if it has a verified factor of type totp, which completion asks for |
| MfaGating.VerifiedFactorEndsPasswordSessions | internal/auth/app/login.go:109-140 | from when an identity has a verified factor until one is removed, no session of it is opened by a password alone |
| MfaGuarantees.ChallengeOpensOneSession | internal/mfa/app/complete.go:65-112 | however logins and completions interleave, a challenge opens at most one session |
| MfaGuarantees.ConsumeRemovesChallenge | internal/mfa/app/challenge_store.go:42-55 | a completion that reaches the store removes the challenge in every continuation |
| MfaGuarantees.OneGuess | internal/mfa/app/complete.go:65-77 | no interleaved run checks two codes against one challenge, right or wrong |
| MfaGuarantees.SessionsAreGated | internal/auth/app/login.go:104-140 | every session of every interleaved run goes back, event by event, to its own requests: by password alone, to one login that read a policy requiring no second factor, then factors with none verified, and then inserted it; by a challenge, to one login that read a verified factor and stamped and stored the challenge, and one completion that took it from the store before its key expired, looked at it at most 5 minutes after the stamp, checked a code that fits a factor verified at that moment, and then inserted it |
| MfaGuarantees.GatesOpen | internal/mfa/app/complete.go:65-112 | conversely such a sequence of steps opens that session, for that owner and in that way, and it stays opened |
| MfaGuarantees.PasswordCanSufficeIff | internal/auth/app/login.go:104-140 | in every state, some continuation that removes no factor, but may change policies, opens a session of the identity by a password alone if and only if none of its factors is verified or a login under way has read them when none was |
| MfaGuarantees.PasswordCanSufficeAsIff | internal/auth/app/login.go:104-140 | in every state, some continuation that removes no factor and changes no policy opens a session of a given tenant, identity and user by a password alone if and only if a login of theirs is past its read of the factors, or none is verified and the policy requires none now or did not when a login under way read it |
| MfaGuarantees.VerificationCanBeOutrun | internal/mfa/app/totp.go:68-77 | some run reaches a state where a factor of the identity is verified and a password alone can still open a session |
| MfaGuarantees.CodeOpensIff | internal/mfa/app/complete.go:65-112 | a login of an enrolled identity and then a completion, step by step, open a session if and only if the code fits the secret of one of its verified TOTP factors |
| Ownership.EverythingOwned | internal/oauth/app/token.go:145-155 | every session, cache entry, challenge, code and token names exactly the tenant and identity of its user row, and an identity has one user row, whichever of the six paths it came by |
| Sessions.CleanupDecides | migrations/000001_init_schema.up.sql:129 | cleanup deletes exactly the qualifying rows, or nothing if and only if some lineage straddles the cutoff; parent links stay resolvable |
| Sessions.UsableFamilyBlocksCleanup | migrations/000001_init_schema.up.sql:129 | a usable session with an ancestor past the cutoff keeps the whole table as it is, and no lineage of a usable session is cut |
| Sessions.SessionRepository.Create | internal/session/infra/postgres/repository.go:21-60 | inserts the row if and only if the database answers, the id is new and the parent exists; else changes nothing |
| Sessions.SessionRepository.GetByID | internal/session/infra/postgres/repository.go:62-107 | finds the row exactly when it exists and the database answers |
| Sessions.SessionRepository.GetByRefreshTokenHash | internal/session/infra/postgres/repository.go:109-154 | finds a row with that hash, or there is none |
| Sessions.SessionRepository.Revoke | internal/session/infra/postgres/repository.go:156-170 | stamps the row, if there is one, and reports success either way |
| Sessions.SessionRepository.DeleteExpiredOrRevoked | internal/session/infra/postgres/repository.go:172-182 | deletes and counts every qualifying row, or fails without change exactly when a lineage straddles the cutoff |
| Stores.PrincipalCache.Get | internal/auth/middleware/principal_cache.go:33-49 | yields the live entry, and a miss when Redis fails |
| Stores.PrincipalCache.Put | internal/auth/middleware/principal_cache.go:51-60 | a live entry for five minutes, or no change when Redis fails |
| Stores.PrincipalCache.Delete | internal/auth/middleware/principal_cache.go:62-67 | removes the entry, or changes nothing when Redis fails |
| Stores.ChallengeStore.Store | internal/mfa/app/challenge_store.go:34-40 | the challenge is there for five minutes |
| Stores.ChallengeStore.Consume | internal/mfa/app/challenge_store.go:42-55 | yields the live challenge and removes it, in one step |
| Stores.CodeStore.Store | internal/oauth/infra/redis/code_store.go:25-35 | keeps the code until its own expiry, and refuses one already expired |
| Stores.CodeStore.Consume | internal/oauth/infra/redis/code_store.go:37-51 | yields the live code and removes it, in one step |
| Totp.TOTPService.Enroll | internal/mfa/app/totp.go:35-66 | adds one unverified factor, always of type totp |
| Totp.TOTPService.VerifyEnrollment | internal/mfa/app/totp.go:68-77 | marks the factor verified if and only if the code fits its secret |
| Totp.TOTPService.Unenroll | internal/mfa/app/totp.go:95-97 | removes the factor |
| Totp.TOTPService.GetVerifiedByIdentity | internal/mfa/infra/postgres/repository.go:61-66 | lists the identity's verified factors and nothing else |
| Totp.TOTPService.Verify | internal/mfa/app/totp.go:79-93 | accepts a code if and only if it fits a verified TOTP factor of the identity |
| Tokens.JWTService.Issue | internal/token/app/jwt_service.go:36-71 | signs under the newest active key, named in the header, with times cut to whole seconds; fails if and only if no key is active or the database fails |
| Tokens.JWTService.Verify | internal/token/app/jwt_service.go:73-97 | accepts what was issued, from its not-before time until its expiry, while its key row is there |
| Server.Janus.Open | internal/auth/app/login.go:156-189 | the insert and the signing that end each session-creating path do to the state what the atomic path does, whichever accesses fail; the answer names the session inserted, its owner and its refresh token; with no active key the signing fails |
| Server.Janus.TimePasses | internal/auth/middleware/principal_cache.go:22-30 | between requests the server's state changes exactly as by one tick: the three stores forget what has expired |
| Server.Janus.Boot | cmd/iam-server/main.go:91-169 | a server wired up over an empty database and an empty Redis is in the start state of the atomic runs, hence in a reachable one |
| Server.Janus.StaysReachable | cmd/worker/main.go:75-101 | a server in a reachable state is in one at every later time; each use case below that is a request leads from a reachable state to one too, so the guarantees about runs hold of it |
| Server.AdministrationStaysReachable | internal/auth/app/register.go:78-200 | so does any operation of `Registration` on the tables |
| Server.EnrollmentStaysReachable | internal/mfa/app/totp.go:35-97 | and enrolling, verifying or removing a factor |
| Server.Janus.RefreshSession | internal/auth/app/refresh.go:59-148 | answers and leaves the whole state as the atomic rotation with cache delete does; when it succeeds, the session that had the token is revoked and the one in the answer is its child, under the token handed out |
| Server.Janus.RefreshTokenGrant | internal/oauth/app/token.go:196-269 | answers and leaves the whole state as the atomic rotation without cache delete does |
| Server.Janus.LogoutSession | internal/auth/app/logout.go:30-50 | answers and leaves the whole state as the atomic logout does |
| Server.Janus.FromBearer | internal/auth/middleware/authentication.go:62-87 | yields the claims exactly when the token was issued, is in its time and its key can be read |
| Server.Janus.FromSessionHeader | internal/auth/middleware/authentication.go:89-143 | yields a principal, and fills the cache, exactly when the atomic header check does |
| Server.Janus.Authenticate | internal/auth/middleware/authentication.go:44-60 | the bearer token first and the session header next, as the atomic authentication |
| Server.Janus.LogoutRequest | internal/auth/middleware/authentication.go:44-60 | the logout endpoint as a whole, authentication included, answers and leaves the state as the atomic logout request does |
| Server.Janus.Login | internal/auth/app/login.go:89-201 | answers and leaves the whole state as the atomic password login does |
| Server.Janus.CompleteMfa | internal/mfa/app/complete.go:65-138 | the same of MFA completion; the challenge is gone whether or not the code fits |
| Server.Janus.CompleteWebauthn | internal/webauthn/app/login_complete.go:61-129 | the same of a WebAuthn login whose assertion was verified |
| Server.Janus.AuthorizeCode | internal/oauth/app/authorize.go:54-115 | the checks in their order, with the loop over scopes; answers and leaves the whole state as the atomic authorization does |
| Server.Janus.AuthorizeRequest | internal/auth/middleware/authentication.go:44-60 | the authorize endpoint as a whole, likewise |
| Server.Janus.AuthorizationCodeGrant | internal/oauth/app/token.go:91-194 | answers and leaves the whole state as the atomic code grant does, including an ID token that fails after the session is made |
| Server.Janus.CleanUpSessions | cmd/worker/main.go:79-89 | leaves the state as the atomic cleanup does, and counts what it deleted |
| CodeProtocol.AnsweredAtMostOnce | internal/oauth/infra/redis/code_store.go:37-51 | in every interleaved run a code gets at most one token response |
| CodeProtocol.AnswerHasProvenance | internal/oauth/app/token.go:91-123 | each token response traces to one authorize request with the same client, redirect URI and owner, a challenge that is S256 of the verifier, at most 10 minutes before the check and not after it; its scopes read back as those requested, all allowed to the client (sections 4.1.2 and 4.1.3 of RFC 6749, section 4.6 of RFC 7636) |
| CodeProtocol.ExchangeRemovesCode | internal/oauth/app/token.go:105-123 | an exchange past the client check removes the code for good, whether or not it succeeds |
| CodeProtocol.ExchangeAnsweredIff | internal/oauth/app/token.go:91-123 | an uninterrupted exchange is answered if and only if client and secret are right, the code is in the store and unexpired, and client, redirect URI and S256 of the verifier are the code's |
| CodeProtocol.AuthorizeStoresIff | internal/oauth/app/authorize.go:54-109 | an uninterrupted authorize request stores its code if and only if everything it asks for is in order |
| Scopes.GrantedScopeReadsBack | internal/oauth/app/authorize.go:117-123 | splitting the joined response scope gives back the requested list, for every request string (section 3.3 of RFC 6749) |
| Scopes.SplitAtSpace | internal/oauth/app/authorize.go:117-123 | white space of any kind separates scopes, and nothing else does |
| Scopes.HasScope | internal/oauth/app/token.go:277-284 | finds the scope if and only if it is in the list |
| Keys.SerialRotations | cmd/key-rotator/main.go:34-48 | after any rotations one after the other, crashed or not, the signing key is the last rotator's or there is none, rotation times never change and no key is removed |
| Keys.RotateSigningKey | cmd/key-rotator/main.go:34-48 | deactivates every key and inserts the new one, stopping at the first failure; on success the new key is the one that signs |
| Keys.KeyRepository.GetActive | internal/token/infra/postgres/repository.go:30-48 | yields a newest active key; none if the database fails or no key is active |
| Keys.KeyRepository.GetByID | internal/token/infra/postgres/repository.go:50-66 | finds the key exactly when it is there and the database answers |
| Keys.KeyRepository.Create | internal/token/infra/postgres/repository.go:68-75 | inserts a new, unrotated key or changes nothing |
| Keys.KeyRepository.Deactivate | internal/token/infra/postgres/repository.go:77-81 | stamps the active keys and no others |
| Keys.KeyRepository.ListPublic | internal/token/infra/postgres/repository.go:83-105 | lists exactly the keys unrotated or rotated less than 7 days ago, each once, newest first, or reports that the query failed |
| Keys.KeyDocument | internal/token/transport/http/jwks.go:39-58 | serves exactly the published keys that can be encoded, newest first, or an error when they cannot be listed |
| KeyProtocol.UnexpiredTokensArePublished | internal/token/infra/postgres/repository.go:83-105 | across any interleaved rotations and issues, the key of every unexpired token is published and in the table, given delay + 15 min within 7 days |
| KeyProtocol.StaleDocumentFindsKeyIff | internal/token/transport/http/jwks.go:39-58 | a key document fetched earlier holds the key of an unexpired token if and only if the key existed at the fetch |
| KeyProtocol.ActiveKeysAreThoseSinceDeactivation | cmd/key-rotator/main.go:40-48 | the active keys are those inserted since the last deactivation, so at most one is active if and only if at most one insert followed it |
| KeyProtocol.InsertLeavesOneIff | cmd/key-rotator/main.go:45-48 | an insert leaves at most one active key if and only if no key is active just before it |
| KeyProtocol.OverlappingRotatorsLeaveTwo | cmd/key-rotator/main.go:40-48 | some run of overlapping rotators ends with two active keys |
| KeyProtocol.IssuerSigns | internal/token/app/jwt_service.go:36-71 | an issuer that read a newest active key and stamps in time signs under it, for 15 minutes |
| Snapshots.SnapshotsNeverOverGrant | internal/auth/middleware/authentication.go:115-141 | a principal assembled by separate reads, whenever it was made, agrees with the tables now on whom it is about, and holds no role or permission a fresh read would not find |
| Snapshots.UndisturbedSnapshot | internal/auth/middleware/authentication.go:115-141 | reads that all arrive and that no commit comes between give exactly the e-mail, roles and permissions in the tables |
| Registration.Database.GetRolesForUser | internal/authorization/infra/postgres/user_role_repository.go:41-77 | lists only roles the user holds, and all of them if and only if all the user's role rows arrive |
| Registration.Database.GetPermissionsForUser | internal/authorization/infra/postgres/role_permission_repository.go:80-122 | lists each permission of the user once and no other, and all of them if and only if that many rows arrive |
| Directory.GrantsGrow | internal/authorization/infra/postgres/role_permission_repository.go:80-122 | when rows are only added, a user's roles and permissions only grow |
| Directory.JoinsByRow | internal/authorization/infra/postgres/role_permission_repository.go:80-122 | a user has a role or permission exactly when rows of the join tables lead to it |
| Registration.Register | internal/auth/app/register.go:74-201 | all or nothing wherever it fails; on success the tables are exactly the old ones with one tenant under the first free slug, one identity with the given e-mail, a credential with the given password hash, one user, one owner role held by that user only, the ten owner permissions created where they were missing, and granted to that role only; succeeds if and only if the e-mail is new and a slug is free |
| Registration.RegistrationLeavesOthersAlone | internal/auth/app/register.go:78-200 | a registration changes no other user's row, roles or permissions |
| Registration.BootstrapTenantOwnerPermissions | internal/authorization/app/permission_bootstrap.go:45-93 | finds or creates each owner permission and grants it on top of what the role has; succeeds if and only if the role exists and had none of the ten, and names stay unique |
| Registration.GenerateUniqueSlug | internal/tenant/app/slug_service.go:20-48 | yields the first free candidate, or none of the six is free |
| Registration.CreateUser | internal/identity/app/create_user.go:57-139 | all or nothing; on success exactly one user of the tenant, with exactly that one role of the same tenant; succeeds if and only if the e-mail is new, the username is free in the tenant and the tenant has the role |
| Registration.CreateRole | internal/authorization/app/create_role.go:30-58 | creates the role if and only if the insert goes through, which needs the name to be new in the tenant; a conflict if and only if the lookup finds the name |
| Registration.AssignPermission | internal/authorization/app/assign_permission_to_role.go:35-69 | a role gains exactly that name if and only if it is of the caller's tenant, the permission exists and the role lacked it |
| Registration.Transaction.Execute | internal/platform/postgres/tx/tx.go:35-43 | a statement inside a transaction takes effect on its copy of the tables, or aborts it |
| Registration.Transaction.Commit | internal/platform/postgres/tx/tx.go:29-47 | the transaction's tables become the committed ones, or nothing changes: when it aborted or the commit fails |
| Base64.RoundTrip | internal/shared/password/password.go:38-39 | unpadded Base64 decodes to what was encoded, for every byte sequence (sections 3.2 and 4 of RFC 4648) |
| Base64.GroupsAreNumbers | internal/shared/password/password.go:38-39 | three bytes are printed as the four base-64 digits of their number, most significant first, and one or two as that number padded with zero bits (section 4 of RFC 4648) |
| Passwords.PrintedFields | internal/shared/password/password.go:41-48 | a printed hash splits into exactly its six fields |
| Passwords.PrintedAccepts | internal/shared/password/password.go:53-83 | for every salt and key, a printed hash accepts exactly the passwords that derive that key from that salt |
| Passwords.OtherShapesRefused | internal/shared/password/password.go:53-57 | a stored string without exactly five separators accepts no password |
| Passwords.Hash | internal/shared/password/password.go:21-51 | fills the salt and prints a hash that accepts the password, and another only if it derives the same key |
| BigEndian.BigIntBytes | internal/token/transport/http/jwks.go:102-112 | decodes to the number it was given and is its only minimal encoding (section 2 and section 6.3.1.2 of RFC 7518) |
| BigEndian.MinimalIsUnique | internal/token/transport/http/jwks.go:102-112 | a number has one encoding without leading zero |

## Left out

- HTTP handlers, cookies, CORS, metrics, audit publishing and consumption, configuration: no state worth proving.
- SHA-256, Argon2, ECDSA and RSA, PEM parsing, TOTP code generation, randomness: inputs or function parameters, as listed above.
- The WebAuthn ceremony: its verified credential is an input of `CompleteWebauthn`.
- Fixed-width EC coordinates and the key-type switch in `toJWK`: which keys it can encode is an input of `KeyDocument`.
- Refresh-token client binding, issuer and audience checks, rate limits: the code does not enforce them.
- Rows and tokens in `MfaProtocol`: a session there is its owner and how it was opened; what becomes of it is the subject of `SessionProtocol`.
- Roles and permissions inside `Server` and `Requests`: a principal there is its owner; what the separate reads of roles and permissions may return is the subject of `Snapshots`.
- The foreign keys of sessions on users, tenants and identities: sessions refer to users only, and `Ownership.EverythingOwned` shows the row is always there.
- `slug.FromEmail`: the base slug is an input of registration.
- `HasRole` and `HasPermission` in `internal/shared/principal/helpers.go`: linear searches for one name in the role or permission list a principal carries; no session, token or key decision modelled here depends on them.
- List and get endpoints that return a repository's rows unchanged: they alter nothing.
- The ticker in `runSessionCleanup`: each tick is a cleanup request, at any time and any number of times.
- `internal/auth/domain/refresh_token.go` and the two validators no use case calls.
- Sessions.SessionRepository.GetByRefreshTokenHash: which row is found when two share a hash is not modelled, because fresh tokens rule it out (`SerialRotation`).
- Server.Janus.Authenticate: one flag says whether the cache works for the whole request, where each Redis command can fail by itself; the interleaved model has that.
- Server.Janus.Login: the tables must be consistent, which `Registration` keeps, so that the lookups by e-mail and by identity have one answer.
