# Sessions, tokens and accounts of Braza SSO

This project models the state that the SSO server keeps for its users, and proves what that state guarantees over whole
runs. The state is one flat Redis keyspace (one-time tokens, refresh tokens with a per-user index, counters) and a few
Cassandra tables (users, the users_by_email lookup table, recovery codes, federated identities, consents, clients).

## How it is organised

The handlers, the token store and the repositories change state step by step, so they are classes whose methods issue
the same Redis and Cassandra calls in the same order as the Go code. Each method is proved equal to a function on
values (`Login`, `SignUp`, `SecondFactor`, `Authorization`, `Tokens`, `UserTables`), and the theorems are about those
functions and about machines built from them. `Answers` describes each function a second time, by conditions on rows,
entries and the clock, so that the steps of a handler and what its caller is promised are two statements, not one.

| file | what it holds |
|---|---|
| `Common`, `Uuids`, `Base64`, `PasswordHash`, `HashTexts` | identifiers and encodings, with their round trips and the exact texts they accept |
| `Keyspace`, `Keys` | the Redis commands over any key type, the eleven key prefixes, and why they do not collide |
| `TokenStore`, `UserTables`, `Repositories` | the token store and the tables: functions, and classes proved against them |
| `World`, `Login`, `SecondFactor`, `Authorization`, `Handlers` | every handler as a function and as a method |
| `Server`, `ServerGuarantees` | all handlers as one machine, its invariant, and what the invariant means |
| `Effects`, `Answers` | the answer of every handler for all arguments, and what it leaves in Redis and the tables |
| `Columns`, `Journeys` | which request changes which column of an account, and what a user gets over several requests |
| `Lockout`, `LockoutOnServer` | the timed account machine, and the proof that the server behaves like it |
| `RecoveryCodes`, `ConsentCoverage`, `RateLimiter` | conservation of codes, coverage of consent, the limiter as a trace function |
| `CrashSafety` | token store operations that stop after any prefix of their commands |
| `Sessions`, `SessionGuarantees` | sign-in, rotation, logout and revocation interleaved at every Redis command |
| `Revocation` | which refresh tokens a revocation can be relied on to find |
| `SessionHandlers` | those interleaved steps run in one go are the handlers |
| `AuthCodes` | authorization codes interleaved at every command |
| `OneTimeTokens` | email verification tokens, reset tokens and OAuth states interleaved at every command |
| `AccountRaces` | account creation and TOTP updates interleaved at every Cassandra statement |

Three granularities are used, and every theorem about runs names its own in the table below.

- **H**, handler atomic: each request is one step and store calls succeed (`Server` and what imports it, `Lockout`,
  `RateLimiter`).
- **I**, interleaved: any number of requests in flight, each stopped between any two commands, any of them abandoned
  (`Sessions`, `Revocation`, `AuthCodes`, `OneTimeTokens`, `AccountRaces`).
- **C**, crash prefix: operations one after another, each cut short anywhere (`CrashSafety`).

The clock is one monotone counter of seconds; an entry is live strictly before its expiry. Random tokens, codes and
UUIDs are fresh: a machine refuses a draw that was used before. Argon2id, TOTP validation, SHA-256, the password policy
and the trimming and lower-casing of emails are parameters of every theorem that meets them, so each holds for any such
functions.

## Where the code differs from what it says of itself

- The limiter is described as a sliding window (`internal/middleware/ratelimit.go:16`), but EXPIRE renews the window on
  every hit, refused ones included. A key that keeps being used with gaps shorter than the window is never admitted
  again: `RateLimiter.AdmittedIff` is the exact rule.
- The same renewal makes the lockout bound better than five guesses per window suggests: `4 * floor(T / 15 min) + 5`
  over a span T, which `Lockout.SpanBoundIsTight` shows is reached.
- A password reset clears the failure columns but not the Redis counter, so the counter can pass 5 by one per reset
  (`Lockout.ResetLetsCounterGrow`); `Lockout.CouplingHolds` carries the number of resets.
- `RevokeAllUserSessions` is described as reuse detection (`internal/auth/token_store.go:100`); `Refresh` does not call
  it, since a consumed token no longer names its user. It is modelled where it is called.
- A revocation deletes the tokens it listed and then the whole index, so a token stored in between stays alive and
  unlisted (`SessionGuarantees.SignInEscapesRevocation`). `Revocation.StaysListedIff` is the exact condition for a token
  to remain within reach of a later revocation.
- `findOrCreateUser` says it re-fetches after losing a race (`internal/auth/federation.go:209-212`), but tests the
  lookup error, which is never `ErrEmailTaken`. `AccountRaces.FirstReadDecides` says exactly when Create refuses,
  `AccountRaces.IdsHaveRowsUnlessRefused` that Create then wrote no row for the id, and
  `AccountRaces.LosingSignInHasNoAccount` gives a run.
- The duplicate check and the insert of Create are separate statements, so two of them may both pass the check
  (`AccountRaces.RacingCreatesDuplicate`). `AccountRaces.NoSecondRowIff` is the exact condition for an email in the
  lookup table to get no further row.
- Confirm and Recovery write back the TOTP secret they read, so one that overlaps a new enrolment undoes it
  (`AccountRaces.LateConfirmRestoresOldSecret`, `AccountRaces.LateRecoveryRestoresOldSecret`).
  `AccountRaces.SecretStaysIff` is the exact condition under which a secret stays.
- Consent checks neither the client, nor the redirect URI, nor the challenge method: its guard is the session alone
  (`ConsentCoverage.ConsentIssuesToAnySession`), and an unknown client gets a token
  (`ConsentCoverage.UnknownClientGetsToken`).
  `ConsentCoverage.CodesRegisteredIff` says in which runs all codes go to registered clients and redirect URIs.

## Model

| member | source | states |
|---|---|---|
| Uuids.ParseToString | internal/auth/login.go:190-194 | A user id written into Redis reads back as the same UUID, so a stored text names one user |
| Uuids.ParseIff | internal/auth/login.go:190-194 | A 36-character text reads as a user id if and only if it is that id's canonical text, hexadecimal letters in either case |
| Base64.DecodeEncode | internal/auth/password.go:97-98 | Unpadded base64 decodes what it encoded, in both alphabets, for every octet string |
| Base64.EncodingsAreTheCleanTexts | internal/auth/password.go:125-132 | A text is an encoding if and only if it is spelled in the alphabet, has no lone last digit and no stray low bits; other accepted texts are not canonical |
| PasswordHash.ParseHashPassword | internal/auth/password.go:90-99 | Parsing a stored hash gives back the version, costs, salt and digest it was printed from |
| PasswordHash.VerifyHashPassword | internal/auth/password.go:108-148 | A stored hash accepts its own password, and another one if and only if the Argon2id digests agree |
| HashTexts.AcceptedIff | internal/auth/password.go:108-148 | A text accepts a password if and only if it is written "$argon2id$v=..$m=..,t=..,p=..$salt$digest" and its digest is Argon2id of password and pepper under the costs and salt written in it |
| HashTexts.MalformedIff | internal/auth/password.go:108-132 | A text is reported as no hash if and only if it is not so written |
| HashTexts.NoPrefixNoPassword | internal/auth/password.go:109-113 | A text that does not begin "$argon2id$", such as the empty one, accepts no password |
| Keys.RenderInjective | internal/auth/token_store.go:13-22 | Two different typed keys never render to the same Redis key, whatever token or user text a caller supplies |
| Keys.RateTailCollision | internal/middleware/ratelimit.go:46 | Two (path, ip) pairs share a limiter key if and only if they are equal or one path continues the other by a colon |
| Keys.ExecRefines | internal/auth/token_store.go:13-22 | A command on a rendered key does to the flat keyspace what the typed command does to its own kind, with the same reply |
| Keys.FlatRunsLikeTyped | internal/auth/token_store.go:13-22 | Any run over the flat keyspace replies exactly as one separate map per kind of key would |
| Keys.NeverMistyped | internal/auth/token_store.go:13-22 | The server's commands keep every key at its own type, so none is ever answered WRONGTYPE |
| Tokens.RedisClient.Do | internal/auth/token_store.go:34-40 | One command on the string keyspace keeps it in step with the typed one; an unreachable server changes nothing |
| Tokens.RedisClient.ExecPipeline | internal/auth/token_store.go:107-112 | A pipeline of DELs amounts to the DELs in order |
| Tokens.TokenStore.CreateEmailVerificationToken | internal/auth/token_store.go:43-47 | SET under email_verify with the given lifetime, nothing else |
| Tokens.TokenStore.ConsumeEmailVerificationToken | internal/auth/token_store.go:50-57 | GETDEL: returns the live user id and removes it |
| Tokens.TokenStore.CreatePasswordResetToken | internal/auth/token_store.go:60-64 | SET under pwd_reset with the given lifetime, nothing else |
| Tokens.TokenStore.ConsumePasswordResetToken | internal/auth/token_store.go:67-74 | GETDEL: returns the live user id and removes it |
| Tokens.TokenStore.StoreRefreshToken | internal/auth/token_store.go:77-84 | SET of the token, then SADD to the owner's index, in that order |
| Tokens.TokenStore.ConsumeRefreshToken | internal/auth/token_store.go:87-98 | GETDEL of the token, then SREM from the index of the user it named |
| Tokens.TokenStore.RevokeAllUserSessions | internal/auth/token_store.go:101-114 | SMEMBERS, one DEL per listed token, the index last; together they remove exactly the listed tokens and the index |
| Tokens.RevokeCommandsRevoke | internal/auth/token_store.go:101-114 | Whatever order Redis lists the members in, the uninterrupted commands amount to the atomic revocation |
| Tokens.TokenStore.StoreSessionToken | internal/auth/token_store.go:117-119 | SET under sso_session for seven days |
| Tokens.TokenStore.LookupSessionToken | internal/auth/token_store.go:122-128 | Reads a session without consuming it |
| Tokens.TokenStore.RevokeSessionToken | internal/auth/token_store.go:131-133 | Removes that session entry and nothing else |
| Tokens.TokenStore.StoreMFASession | internal/auth/token_store.go:136-138 | SET under mfa_session with the given lifetime |
| Tokens.TokenStore.ConsumeMFASession | internal/auth/token_store.go:141-147 | GETDEL: returns the live user id and removes it |
| Tokens.TokenStore.SetState | internal/auth/token_store.go:150-153 | SET of the OAuth state for ten minutes |
| Tokens.TokenStore.ConsumeState | internal/auth/token_store.go:156-163 | GETDEL: returns the live state and removes it |
| Tokens.TokenStore.IncrLoginAttempts | internal/auth/token_store.go:167-176 | INCR and EXPIRE as one step: the new count, with its expiry renewed to fifteen minutes |
| Tokens.TokenStore.ResetLoginAttempts | internal/auth/token_store.go:179-181 | Removes that user's counter and nothing else |
| CrashSafety.AttemptKeeps | internal/auth/token_store.go:76-114 | C: one operation stopped after any number of its commands keeps every acknowledged token that exists listed in its owner's index |
| CrashSafety.CrashesKeepTheIndex | internal/auth/token_store.go:76-114 | C: so does any run of operations, each complete or cut short anywhere |
| CrashSafety.RevocationReaches | internal/auth/token_store.go:101-114 | A complete revocation spares a refresh token if and only if the user's index does not list it |
| CrashSafety.LaterRevocationReachesAll | internal/auth/token_store.go:76-114 | C: whatever crashed before, a later complete revocation leaves no acknowledged token of the user |
| CrashSafety.UnacknowledgedTokenEscapes | internal/auth/token_store.go:77-84 | C: a store call that died between its two commands leaves a live token that revocation does not see, so the proviso is needed |
| RateLimiter.SlidingWindowLimiter.Allow | internal/middleware/ratelimit.go:27-38 | Counts the hit, renews the window, admits up to the limit; when Redis fails it admits with count 0 |
| RateLimiter.SlidingWindowLimiter.PerIP | internal/middleware/ratelimit.go:42-58 | Serves a request if and only if the counter of its path and address is within the limit; fails open |
| RateLimiter.SlidingWindowLimiter.PerEmailSilent | internal/middleware/ratelimit.go:62-78 | The same under its own prefix; fails open |
| RateLimiter.RunLengthIsLongest | internal/middleware/ratelimit.go:27-38 | The trace function is the length of the longest run of requests ending now with all gaps below the window |
| RateLimiter.CountIsRunLength | internal/middleware/ratelimit.go:28-36 | H: the count returned in any timed run is that run length, whatever is done to other keys in between |
| RateLimiter.AdmittedIff | internal/middleware/ratelimit.go:37 | A request is admitted if and only if the limit is positive and it is among the first, or one of the last `limit` gaps was a whole window |
| RateLimiter.WindowBound | internal/middleware/ratelimit.go:27-38 | Any half-open window of any sorted trace holds at most `limit` admitted requests |
| RateLimiter.LimiterBound | internal/middleware/ratelimit.go:27-38 | H: the same bound for every timed run of the limiter |
| UserTables.FindByEmailIsScan | internal/user/repository.go:86-98 | When the lookup table agrees with the rows, a lookup by email finds a row if and only if it carries that email |
| UserTables.CreateKeepsIndex | internal/user/repository.go:27-60 | Create keeps the agreement, and refuses if and only if some row already carries the email |
| UserTables.UpsertKeepsIndex | internal/user/repository.go:101-134 | An UPDATE of an existing row keeps the agreement |
| UserTables.PhantomRowBreaksIndex | internal/user/repository.go:101-105 | An UPDATE aimed at a missing id creates a row that breaks the agreement, so callers must pass existing ids |
| UserTables.FreshCodesUnused | internal/user/recovery_codes.go:23-39 | With distinct ids, as many unused codes are stored as there are hashes, under exactly those ids |
| UserTables.MarkUsedTakesOne | internal/user/recovery_codes.go:66-70 | Marking takes exactly that code out of that user's unused ones |
| Repositories.Repository.Create | internal/user/repository.go:27-60 | Duplicate check, then the row, then the lookup entry |
| Repositories.Repository.FindByEmail | internal/user/repository.go:86-98 | The row the lookup entry points to, if both exist |
| Repositories.Repository.SetEmailVerified | internal/user/repository.go:101-105 | Upserts that one column |
| Repositories.Repository.UpdateFailedAttempts | internal/user/repository.go:108-112 | Upserts the failure count and the lock, clearing the lock when none is given |
| Repositories.Repository.UpdateFailedAttemptsReset | internal/user/repository.go:115-119 | Upserts count 0 and no lock |
| Repositories.Repository.UpdatePassword | internal/user/repository.go:122-127 | Upserts the hash, count 0 and no lock |
| Repositories.Repository.UpdateTOTP | internal/user/repository.go:130-134 | Upserts secret and flag together |
| Repositories.RecoveryCodeRepository.ReplaceAll | internal/user/recovery_codes.go:23-39 | The loop leaves exactly the new codes, all unused |
| Repositories.RecoveryCodeRepository.ListUnused | internal/user/recovery_codes.go:42-63 | Lists the unused codes of the user, exactly those, each once and with its stored hash |
| Repositories.RecoveryCodeRepository.MarkUsed | internal/user/recovery_codes.go:66-70 | Upserts the used flag of that code |
| Repositories.FederatedIdentityRepository.Upsert | internal/user/federated_identity.go:20-26 | Writes the identity row of that user and provider and nothing else |
| Repositories.ConsentRepository.HasConsent | internal/oauth/client.go:78-99 | The loops answer yes if and only if there is a row and it holds every requested scope |
| Repositories.ConsentRepository.StoreConsent | internal/oauth/client.go:102-106 | Overwrites the row of that user and client |
| Repositories.ClientRepository.FindByIDs | internal/oauth/client.go:56-66 | The loop returns the known clients in order and skips the others |
| SecondFactor.FirstMatchIsListed | internal/auth/totp.go:294-301 | The search returns a listed code that accepts the text, or none listed does |
| Handlers.LoginHandler.Login | internal/auth/login.go:110-172 | Normalised email, lock check before password check, failure recording, clearing of counter and row, second-factor session or token pair |
| Handlers.LoginHandler.HandleFailedAttempt | internal/auth/login.go:237-264 | Counts in Redis, copies the count into the row, locks for thirty minutes from the fifth |
| Handlers.LoginHandler.IssueTokenPair | internal/auth/login.go:207-234 | Stores a refresh token and a session for the user |
| Handlers.LoginHandler.Refresh | internal/auth/login.go:175-204 | Consumes the token first, then parses, looks up and stores the next one |
| Handlers.LogoutHandler.Logout | internal/auth/logout.go:37-52 | Consumes the refresh token and removes the session, each if its cookie is there |
| Handlers.LogoutHandler.RevokeAll | internal/auth/logout.go:68-79 | Revokes the subject's refresh tokens if there is a subject |
| Handlers.PasswordResetHandler.ResetRequest | internal/auth/password_reset.go:78-108 | Stores a reset token for a known normalised email; the answer never differs |
| Handlers.PasswordResetHandler.Reset | internal/auth/password_reset.go:116-170 | Policy before consuming the token, then new hash and full revocation |
| Handlers.RegistrationHandler.Register | internal/auth/register.go:78-144 | Creates the row of the normalised email and its verification token; a taken email gets the same answer |
| Handlers.RegistrationHandler.VerifyEmail | internal/auth/register.go:147-172 | Consumes the token and sets the flag |
| Handlers.RegistrationHandler.ResendVerification | internal/auth/register.go:179-209 | Stores a new token for a known, unverified normalised email only |
| Handlers.FederationHandler.GoogleRedirect | internal/auth/federation.go:107-117 | Stores the state |
| Handlers.FederationHandler.FindOrCreateUser | internal/auth/federation.go:193-215 | H: the row of that email, or a new one |
| Handlers.FederationHandler.GoogleCallback | internal/auth/federation.go:120-191 | Consumes the state before anything else, answers each kind of bad ID token as the code does, finds or creates the user, upserts the identity, stores a refresh token |
| Handlers.TOTPHandler.Enroll | internal/auth/totp.go:110-170 | Stores the secret disabled, then replaces the recovery codes by the hashes of the eight it returns |
| Handlers.TOTPHandler.Confirm | internal/auth/totp.go:177-213 | Enables the stored secret if and only if the code fits it |
| Handlers.TOTPHandler.Verify | internal/auth/totp.go:221-256 | Consumes the session before looking at the code |
| Handlers.TOTPHandler.Recovery | internal/auth/totp.go:264-348 | Consumes the session, marks the first matching code, disables the second factor, signs in |
| Handlers.TOTPHandler.FindMatch | internal/auth/totp.go:294-301 | The loop finds the first unused code that accepts the text |
| Handlers.OAuthHandlers.ValidRedirectURI | internal/oauth/handlers.go:382-389 | The loop answers yes if and only if the URI is one of the registered ones |
| Handlers.OAuthHandlers.Authorize | internal/oauth/handlers.go:64-135 | The checks in order; a code is issued only past all of them |
| Handlers.OAuthHandlers.Consent | internal/oauth/handlers.go:300-341 | Stores the consent, then issues a code |
| Handlers.OAuthHandlers.IssueAuthCode | internal/oauth/handlers.go:351-365 | SET of the grant for sixty seconds |
| Handlers.OAuthHandlers.HandleAuthCode | internal/oauth/handlers.go:163-224 | GETDEL before any check; client, redirect URI and PKCE before the user lookup |
| Server.RevokeAllExact | internal/auth/token_store.go:101-114 | H: in a reachable keyspace, revocation removes exactly the refresh tokens that name the user, and the index |
| Server.StepKeeps | internal/auth/login.go:110-204 | H: every request of every handler keeps the server invariant |
| Server.RunKeeps | internal/auth/login.go:110-204 | H: so does every run |
| ServerGuarantees.NoPhantomRows | internal/user/repository.go:101-134 | H: no request adds a users row but the sign-up that creates it |
| ServerGuarantees.StoredIdsAreRows | internal/oauth/handlers.go:201 | H: every stored user id is the text of an existing row, so no request fails to parse one and the code exchange cannot panic |
| ServerGuarantees.LookupIsScan | internal/user/repository.go:86-98 | H: FindByEmail returns a row if and only if it is the one row carrying that email |
| ServerGuarantees.LogoutAllRevokes | internal/auth/logout.go:68-79 | H: afterwards exactly the refresh tokens of the user and the index are gone; every other key and every row is unchanged |
| ServerGuarantees.ResetRevokes | internal/auth/password_reset.go:116-170 | H: the same for a reset, which succeeds exactly when its token is live and the policy accepts, spends its own token, replaces the hash and unlocks the account |
| Answers.LoginAnswers | internal/auth/login.go:110-172 | H: signed in if and only if the account that carries the email is unlocked, its hash accepts the password and its second factor is off; asked for the factor if and only if it is on; locked, bad request and unauthorized exactly otherwise |
| Answers.LoginEffects | internal/auth/login.go:110-172 | H: only whoever may enter gets a pair for seven days or a second-factor session for five minutes; any other login changes no entry but the account's counter |
| Answers.RefreshAnswers | internal/auth/login.go:175-204 | H: succeeds if and only if the token is live, for the user it stands for; then the token is gone, its successor is stored and listed, a session is stored, and nothing else changes; otherwise only the token goes |
| Answers.LogoutAnswers | internal/auth/logout.go:37-52 | H: always 200; the refresh token, its place in the index and the session are gone, and nothing else changes |
| Answers.ResetRequestAnswers | internal/auth/password_reset.go:78-108 | H: always 200; an hour's reset token for the account that carries the email, and no other change |
| Answers.ResetAnswers | internal/auth/password_reset.go:116-170 | H: 200 if and only if the token is live and the policy accepts; the row then has the new hash and no lock; a weak password does not cost the token |
| Answers.RegisterAnswers | internal/auth/register.go:78-144 | H: each refusal exactly; for a free email one row with the hash of the password, its lookup entry and a day's verification token; for a taken one nothing, with the same answer |
| Answers.VerifyEmailAnswers | internal/auth/register.go:147-172 | H: 200 if and only if the token is live; it is spent and sets the flag of its user's row, no other column |
| Answers.ResendAnswers | internal/auth/register.go:179-209 | H: always 200; a new day's token if and only if the email is carried and unverified |
| Answers.GoogleRedirectAnswers | internal/auth/federation.go:107-117 | H: the state is stored for ten minutes with where to return to |
| Answers.GoogleAnswers | internal/auth/federation.go:120-215 | H: signs in the account that carries the email, or a new one without password, if and only if the state is live and an email is vouched for; the answer of each failure |
| Answers.GoogleEffects | internal/auth/federation.go:120-191 | H: the state is spent either way; a sign-in leaves one refresh token and changes no other entry |
| Answers.EnrollAnswers | internal/auth/totp.go:110-170 | H: for an existing user the row has the new secret with the factor off and no other column changed, and the codes are stored unused under their own hashes; each refusal exactly |
| Answers.EnrolledCodesWork | internal/auth/totp.go:149-163 | H: afterwards a text is a recovery code if and only if it has the digest of one of the codes returned |
| Answers.ConfirmAnswers | internal/auth/totp.go:177-213 | H: the factor goes on if and only if the code is right for the stored secret, and nothing else changes |
| Answers.VerifyAnswers | internal/auth/totp.go:221-256 | H: signed in if and only if the session stands for the user and the code fits the user's secret; a wrong code costs the session and changes nothing else |
| Answers.RecoveryAnswers | internal/auth/totp.go:264-348 | H: signed in if and only if the session stands and the code is an unused one; then one such code is used, the factor is off with its secret kept, and no table changes otherwise |
| Answers.AuthorizeAnswers | internal/oauth/handlers.go:64-135 | H: unknown client, login redirect, consent screen and code each under its exact condition; the code is stored for a minute with every field of the request |
| Answers.ConsentAnswers | internal/oauth/handlers.go:300-341 | H: for a live session the consent row and the code are stored with every field, and nothing else; without one nothing |
| Answers.ExchangeAnswers | internal/oauth/handlers.go:163-224 | H: a token for a user and client if and only if the code is live, was issued for them and the redirect URI, and has no challenge or the verifier proves it; invalid grant otherwise; the code is gone either way |
| Columns.RowMoves | internal/user/repository.go:101-134 | H: over all requests, the hash changes by the account's reset alone, the verified flag by its link, the secret by its enrolment, the factor by its enrolment, recovery or right confirmation, the email never |
| Journeys.LinkLasts | internal/auth/token_store.go:43-74 | H: a mailed link keeps its entry in every run in which nobody follows it |
| Journeys.RegisterThenVerify | internal/auth/register.go:78-172 | H: the link mailed on registration, first followed within a day, verifies the email of the new account for good, whatever runs before and after |
| Journeys.RegisteredPasswordLasts | internal/auth/login.go:130-145 | H: until a reset, whatever else runs, the account can be entered exactly when it is not locked, with the registered password and none of another digest |
| Journeys.ResetThenLogin | internal/auth/password_reset.go:78-170 | H: a reset link first followed within an hour works and unlocks; from then until the next reset the new password enters, and none of another digest |
| Journeys.GoogleAccountsHaveNoPassword | internal/auth/federation.go:205-214 | H: no password enters an account that Google sign-in created, in any run without a reset of it |
| Journeys.FactorOnIff | internal/auth/totp.go:139-210 | H: over every run, the factor of an account is on if and only if its present secret was confirmed by a right code with no enrolment or recovery since |
| Lockout.CouplingHolds | internal/auth/login.go:131-155 | H: over any run the live counter is at most 5 plus the number of resets, at that bound the lock outlasts it, and a lock comes with failures |
| Lockout.LapsedLockCountsFromOne | internal/auth/login.go:246-248 | H: after a lapsed lock the next failure counts as the first |
| Lockout.SuccessClearsAll | internal/auth/login.go:148-155 | H: a right password clears counter, count and lock together |
| Lockout.ResetLetsCounterGrow | internal/auth/password_reset.go:159-166 | H: a run in which a reset lets the counter reach 6 |
| Lockout.EvaluationsSpaced | internal/auth/login.go:130-145 | H: of six successive looks at a password, the first five span a window or the sixth waits out a full lock |
| Lockout.AtMostFivePerWindow | internal/auth/token_store.go:24-28 | H: no half-open fifteen-minute window holds six looks |
| Lockout.SpanBound | internal/auth/token_store.go:24-28 | H: over a span T at most 4 * floor(T / 15 min) + 5 looks |
| Lockout.SpanBoundIsTight | internal/auth/token_store.go:24-28 | H: guesses that reach that number for every whole number of windows |
| LockoutOnServer.StepProjects | internal/auth/login.go:110-172 | H: every request of the server acts on an account as one event of the account machine |
| LockoutOnServer.ChecksAreEvaluations | internal/auth/login.go:130-145 | H: the password checks of a server run on an account are the evaluations of its projection |
| LockoutOnServer.GuessBound | internal/auth/login.go:130-145 | H: from any reachable state, without an evaluated right password or a reset, both bounds hold for every account, whatever else is sent to it |
| LockoutOnServer.LockoutCoupled | internal/auth/login.go:246-261 | H: the coupling holds for every account in every run from the empty server |
| RecoveryCodes.CodesConserved | internal/auth/totp.go:149-163 | H: since the last enrolment unused and accepted codes are disjoint and together the eight issued |
| RecoveryCodes.AcceptedOnlyOnce | internal/auth/totp.go:294-311 | H: no code is accepted twice, and none after eight |
| ConsentCoverage.HasConsentIsSubset | internal/oauth/client.go:89-98 | Consent is set inclusion: order and repetition do not matter |
| ConsentCoverage.IssuedCodesAreCovered | internal/oauth/handlers.go:106-120 | H: a code from Authorize or Consent is stored for sixty seconds for the session's user, with scopes inside the stored consent |
| ConsentCoverage.AuthorizedCodesAreChecked | internal/oauth/handlers.go:74-117 | Authorize issues a code if and only if response type, client, redirect URI, session, consent and challenge method all pass |
| ConsentCoverage.ConsentIssuesToAnySession | internal/oauth/handlers.go:300-341 | Consent issues a code if and only if the session is live, whatever client, redirect URI and challenge method it names |
| ConsentCoverage.UnknownClientGetsToken | internal/oauth/handlers.go:300-341 | The code that Consent issues for an unregistered client is exchanged for a token in that client's name |
| ConsentCoverage.CodesRegisteredIff | internal/oauth/handlers.go:300-341 | H: all codes of a run are for a client and redirect URI registered at issue, with S256 if challenged, if and only if every Consent of a live session in it named such ones |
| ConsentCoverage.ConsentLasts | internal/oauth/client.go:102-106 | H: a stored consent survives every run that does not overwrite it |
| ConsentCoverage.ConsentSkipsTheScreen | internal/oauth/handlers.go:106-111 | H: after Consent, a later Authorize for any of those scopes skips the screen until the row is overwritten |
| SessionHandlers.RotateMovesChain | internal/auth/login.go:182-188 | I: consuming a live token moves its chain, unchanged, from the token to the request and leaves every other holder alone |
| SessionHandlers.MintMovesChain | internal/auth/login.go:214-218 | I: storing a fresh token moves the chain from the request to the token and leaves every other holder alone |
| Sessions.RunOk | internal/auth/login.go:175-234 | I: every interleaving keeps the invariant |
| SessionGuarantees.SessionsNeverMultiply | internal/auth/login.go:175-234 | I: a user's live refresh tokens plus requests that are yet to store one never exceed that user's sign-ins |
| SessionGuarantees.Provenance | internal/auth/token_store.go:76-98 | I: every stored token descends from one sign-in of the user it names through distinct tokens, each consumed |
| SessionGuarantees.ConsumedStaysConsumed | internal/auth/token_store.go:87-98 | I: a token is consumed once, by one request, and never stored again |
| SessionGuarantees.RevokedStaysRevoked | internal/auth/token_store.go:101-114 | I: every token the listing saw is dead once its DEL is sent, and stays dead |
| SessionGuarantees.SignInEscapesRevocation | internal/auth/token_store.go:103-112 | I: a run in which a sign-in between listing and deletion leaves a live token that no later revocation finds |
| Revocation.StaysListedIff | internal/auth/token_store.go:101-114 | I: a stored token stays in its owner's index in every continuation if and only if it is there and every revocation of its owner under way has seen it |
| Revocation.RevocationLeavesTheUnseen | internal/auth/token_store.go:107-113 | I: at its last DEL a revocation leaves exactly the stored tokens of the user that it had not seen, unlisted |
| Revocation.LostForGood | internal/auth/token_store.go:101-114 | I: a token that no index lists, and nobody is about to list, is never listed again |
| SessionGuarantees.SecondFactorFollowsPassword | internal/auth/login.go:158-169 | I: every consumed second-factor session goes back to its own login, less than five minutes before, whose password the stored hash accepted for an unlocked row with the second factor on; no two sessions share a login |
| SessionGuarantees.SignInSpentItsSession | internal/auth/totp.go:221-256 | I: each sign-in by TOTP or recovery had a valid code, consumed a session issued to that user, and that session's login had the password right |
| SessionGuarantees.TwoSignInsTwoSessions | internal/auth/token_store.go:141-147 | I: no two such sign-ins share a session, or the login behind it |
| SessionGuarantees.PasswordSignInWasRight | internal/auth/login.go:130-172 | I: each sign-in by password alone had the right password for an unlocked row with the second factor off |
| SessionGuarantees.PresentingSpends | internal/auth/token_store.go:141-147 | I: presenting a live session spends it before the factor is looked at; a dead one gets nowhere |
| SessionGuarantees.SpentSessionIsUseless | internal/auth/token_store.go:141-147 | I: a spent session, whether its factor was right or wrong, gets nobody further in any continuation |
| SessionGuarantees.MintAndIndexIsStoreRefresh | internal/auth/token_store.go:77-84 | The two interleaved steps back to back are the atomic operation |
| SessionGuarantees.RotateAndUnindexIsConsumeRefresh | internal/auth/token_store.go:87-98 | The two interleaved steps back to back are the atomic operation |
| SessionGuarantees.RefreshWithoutInterruption | internal/auth/login.go:175-204 | The interleaved steps of a rotation, run in one go, leave the keyspace the handler leaves; it signs in if and only if the token is live and its user still there |
| SessionHandlers.LoginWithoutInterruption | internal/auth/login.go:110-172 | The interleaved steps of a login with the right password, run in one go, leave the keyspace and give the answer of the handler, with TOTP and without |
| SessionHandlers.VerifyWithoutInterruption | internal/auth/totp.go:221-256 | The same for the second factor, whether session and code are good or not |
| SessionHandlers.LogoutWithoutInterruption | internal/auth/logout.go:37-52 | The two interleaved steps of a logout are the handler |
| SessionHandlers.LogoutAllWithoutInterruption | internal/auth/token_store.go:101-114 | The interleaved steps of a revocation, in any listing order, are the atomic revocation |
| AuthCodes.PresentOk | internal/oauth/handlers.go:170-199 | I: a presentation, right or wrong, keeps the invariant of issued and presented codes |
| AuthCodes.RunOk | internal/oauth/handlers.go:163-224 | I: every interleaving keeps it |
| AuthCodes.TokensMatchTheirCodes | internal/oauth/handlers.go:184-207 | I: a token has the subject, client and redirect URI of its code, which was taken within sixty seconds of issue, and BASE64URL(SHA256(verifier)) is the bound challenge |
| AuthCodes.OneTokenPerCode | internal/oauth/handlers.go:170-175 | I: no code yields two tokens |
| AuthCodes.PresentationSucceeds | internal/oauth/handlers.go:170-199 | I: a request gets past its checks if and only if its code was issued, is unexpired and was never presented, client and redirect URI are equal, and there is no challenge or the verifier is non-empty and proves it |
| AuthCodes.FirstPresentationIsLast | internal/oauth/handlers.go:170-175 | I: after the first presentation, right or wrong, no other request ever gets a token for the code |
| AuthCodes.RedeemingWithoutInterruption | internal/oauth/handlers.go:163-224 | The interleaved steps run in one go are the handler |
| OneTimeTokens.AnswersAreUnique | internal/auth/token_store.go:43-74 | I: a verification token, reset token or OAuth state is answered to one request only, with the text it was issued for, within its lifetime |
| OneTimeTokens.AnsweredIff | internal/auth/token_store.go:50-74 | I: a request is answered if and only if its token was issued, is unused and has not expired |
| OneTimeTokens.UsedForGood | internal/auth/token_store.go:150-163 | I: a used token never comes back and answers nobody in any continuation |
| AccountRaces.RunOk | internal/user/repository.go:27-134 | I: every interleaving keeps the invariant of rows, index, confirmations and drawn ids |
| AccountRaces.IndexEntriesHaveTheirRow | internal/user/repository.go:38-57 | I: every lookup entry points to a row carrying that email, even with racing Creates |
| AccountRaces.EnabledSecretsWereConfirmed | internal/auth/totp.go:139-210 | I: whenever the second factor is on, some confirmation had a right code for the stored secret |
| AccountRaces.FirstReadDecides | internal/user/repository.go:29-32 | I: Create refuses if and only if its first read found the email, whatever runs in between |
| AccountRaces.IdsHaveRowsUnlessRefused | internal/auth/federation.go:205-214 | I: Create wrote a row, which is still there with its email, for the id a sign-up goes on with if and only if it did not refuse |
| AccountRaces.RacingCreatesDuplicate | internal/user/repository.go:27-60 | I: a run in which two registrations leave two rows for one email |
| AccountRaces.NoSecondRowIff | internal/user/repository.go:27-60 | I: an email in the lookup table gets no further row in any continuation if and only if no Create for it is past its checks and short of its insert |
| AccountRaces.LosingSignInHasNoAccount | internal/auth/federation.go:205-214 | I: a run in which a Google sign-in goes on with an id that has no row |
| AccountRaces.LateConfirmRestoresOldSecret | internal/auth/totp.go:196-210 | I: a confirmation that overlaps a new enrolment turns the old secret back on |
| AccountRaces.LateRecoveryRestoresOldSecret | internal/auth/totp.go:317-325 | I: a recovery that overlaps a new enrolment brings the old secret back, disabled |
| AccountRaces.SecretStaysIff | internal/auth/totp.go:139-210 | I: without a new enrolment a user's secret stays in every continuation if and only if it is stored and every request about to write one for the user holds that same secret |
| AccountRaces.CreateWithoutInterruption | internal/user/repository.go:27-60 | The interleaved steps of Create, run in one go, are the atomic operation |
| AccountRaces.FindOrCreateWithoutInterruption | internal/auth/federation.go:193-215 | The same for the federated lookup or creation, which then is never refused |
| AccountRaces.ConfirmWithoutInterruption | internal/auth/totp.go:177-213 | The same for the tables after a confirmation |
| AccountRaces.EnrollWithoutInterruption | internal/auth/totp.go:110-170 | The same after an enrolment, the recovery codes aside |
| AccountRaces.RecoveryWithoutInterruption | internal/auth/totp.go:264-348 | The same after an accepted recovery, the recovery codes aside |

## Left out

- Keyspace.Exec: counters are unbounded integers, expiry is to the second, and Redis never evicts a live entry.
- Uuids.Parse: accepts the canonical 36-character form only; the library also reads URN, braced and undashed forms, which the server never stores.
- PasswordHash.ParseHash: does not read leading blanks or signs that Sscanf tolerates, and does not panic on zero cost parameters.
- Handlers.LoginHandler.Login: trimming and lower-casing are one arbitrary function of the typed email; JSON decoding and cookies are not modelled.
- Handlers.FederationHandler.GoogleCallback: the code exchange and ID token verification are one parameter, the outcome; linked_at is not modelled.
- Handlers.OAuthHandlers.HandleAuthCode: grants are stored as values, not as JSON text, so the decoding error cannot arise.
- Tokens.TokenStore.StoreRefreshToken: at H store calls succeed; what a failed call leaves behind is the subject of CrashSafety.
- LockoutOnServer.GuessBound: handler atomic only; concurrent failures may overwrite each other's row (`internal/auth/login.go:261`), so no such bound is claimed for interleavings.
- RecoveryCodes.AcceptedOnlyOnce: handler atomic only; listing and marking are not isolated in the code (`internal/auth/totp.go:288-308`).
- ServerGuarantees.LogoutAllRevokes: SSO session tokens survive it, as in the code.
- Sessions.Next: database reads are arbitrary, so it says nothing about rows; `ServerGuarantees` and `AccountRaces` do.
- created_at and updated_at columns, which nothing reads back.
- The character classes of the password policy: an arbitrary predicate that guards Register and Reset.
- JWT signing and verification, client credentials, userinfo and discovery: no state.
- Mail, logging, redirects and back-channel logout calls: no effect on the modelled state.
- Requirements in `openspec/` that the code does not implement, such as revocation on reuse and the unlock link.
