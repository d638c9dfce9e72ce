# Authentication and authorization: a verified model

A Dafny model of the NestJS authentication and authorization stack, with proofs of what it keeps. It covers three cores.

* **The session and account protocol.** User rows with one stored refresh hash each, a TTL'd store of one-time codes, minted tokens that copy claims from a row, and a clock. `Protocol` says what each call of the HTTP interface does as a step on an explicit state; `Services` and `Users` hold the same calls as classes whose methods update the repository, the code store and the token service in the order of the source, each proved equal to its step. `Safety` and `Guarantees` prove invariants of every run; `Authority` says which call may change which part of an account and how long a refresh token lasts; `EndToEnd` follows whole flows (sign-up, two-factor, password reset) with any calls by anyone in between; `Accounts` says when each call succeeds, what a new account is and which password opens it from then on, and what a code sent again is good for; `Departures` states exactly what the code does where its messages suggest something else. `Interleaving` drops the assumption that calls are atomic: each call is a machine that reads, keeps what it read and writes later, any number of them run side by side, and the results that survive are proved again; `Provenance` traces every write back to what its caller showed when the call began; `Renewal` says which refresh token is accepted and for how long; `Schedules` shows that a call left alone in that machine is one step of `Protocol`, and what two side by side can do. `Snapshots` looks, on a smaller machine, at how old the claims of a token are.
* **The route-permission engine.** `RouteTree` flattens the declared tree, `Registry` is the insertion-ordered index with its four-tier lookup, `PathRegex` is the compilation of a path to a regular expression (the text the source builds, a parser for that text and a matcher), `Guard` the decision, `Permissions` the role tables under a memo cache, `RoleConfig` the dynamic overlay.
* **The slug printer and parser**, in `Slug`, with their upkeep in the user row.

`CodeStore` is the Redis code store, `Credentials` the token claims and their checks, `Strings` splitting and joining, `Wrappers` the optional value.

`dafny verify dfyconfig.toml` checks everything.

## What the model takes as given

* argon2: a hash verifies exactly the text it was made from, so a row holds that text. JWS: a token is accepted exactly when it was minted by this key and `now < exp` (section 4.1.4 of RFC 7519); `jti` values are fresh. One signing key per run.
* New row ids, codes, nanoid strings and the lower-casing function are inputs. Of nanoid only the length and the alphabet `[A-Za-z0-9_-]` are assumed; of lower-casing only that it leaves `[a-z0-9-]` alone and gives strings.
* The database keeps ids and addresses unique and non-empty; a user id or address that is taken makes the creation fail.
* Which expressions the host's regular-expression engine compiles, and what those with constructs beyond the ones read in `PathRegex` accept, are inputs.
* Mail is delivered, and the Facebook check yields an address or is not reached.
* In `Interleaving` a token's `iat` is the time its row is read, and the checks of `verifyToken` are one step.
* The clock is after the epoch where a freshly minted token has to be accepted: a zero `iat` counts as a missing one.

## Where the code and its comments part ways

* `initiatePasswordReset` has a neutral answer for unknown addresses, but the lookup before it throws (`auth.use-case.ts:273-280`, `user.repository.ts:24`). The call answers success exactly for the addresses of password accounts (`Departures.ResetAnswer`).
* The 60-second tolerance on `exp` in `validateTokenClaims` never admits anything: the signature library refuses at `exp` already (`Credentials.ClaimWindow`).
* `requireMfa` in `verifyToken` asks for a claim no token is minted with, so it refuses every token (`Services.TokenService.VerifyToken`).
* `pathToRegex` leaves a `.` in a path to the regular expression, where it matches any character; among patterns with no other metacharacter outside their parameters, compilation is faithful exactly for those without a dot there (`PathRegex.FaithfulIffNoDot`).
* A refresh token is single-use, and mirrors the row, with calls atomic. Under interleaving a call redeems a token exactly when no store for its owner comes before the call's last check (`Renewal.LastCheck`), and a token's claims agree with the row exactly as long as nothing different was written since they were read (`Snapshots.SnapshotExact`); `Schedules.DoubleRedemption`, `Snapshots.StaleSnapshot` and `Snapshots.StaleClaim` are interleavings in which this goes wrong.
* The guard takes a refresh token as a bearer token: it is admitted like the access token minted with it, redeemed or not, for seven days instead of one (`Departures.BearerUntilExpiry`, `Departures.GuardCannotTell`). The stored hash separates them the other way: an access token never buys new tokens (`Departures.AccessNeverRefreshes`).
* Two-factor is refused to Facebook accounts where it is requested, but `resend2FAAuthCode` stores an enable code without looking at the provider. A Facebook account can turn two-factor on that way (`Departures.FacebookTurnsOn`), and over all runs only that way (`Departures.FacebookOnlyByResend`).
* A route key joins method and path with a colon. Looking up by key is looking up by method and path, for everything registered under a method text, exactly when that text has no colon (`Registry.KeysFaithfulIffNoColon`); with one, the route answers requests for the text before the colon.

## Model

| member | source | states |
|---|---|---|
| CodeStore.KeyInjective | src/infrastructure/redis/redis.service.ts:14-20 | two (kind, id) pairs share a store key only if they are the same pair, whatever the ids contain |
| CodeStore.KeyTexts | src/infrastructure/redis/redis.service.ts:14-20 | the text of every key |
| CodeStore.StoreRefinesHistory | src/infrastructure/redis/redis.service.ts:55-101 | after any history of calls a code is accepted if and only if the history holds a save of it for that kind and id, less than 300 s old and not replaced, consumed or deleted since |
| CodeStore.EntryIsLiveSave | src/infrastructure/redis/redis.service.ts:55-75 | the entry under a key is that of the one live save of the history, and there is no entry when there is none |
| CodeStore.SingleUse | src/infrastructure/redis/redis.service.ts:60-69 | between two successful verifications of the same kind and id the code was saved again |
| CodeStore.NoInterference | src/infrastructure/redis/redis.service.ts:51-53 | what the store holds for a kind and id is what it would hold had only the calls about that pair been made |
| CodeStore.RedisService.Save | src/infrastructure/redis/redis.service.ts:55-58 | the store is that of the history with this save appended |
| CodeStore.RedisService.Delete | src/infrastructure/redis/redis.service.ts:71-75 | the store is that of the history with this deletion appended |
| CodeStore.RedisService.Verify | src/infrastructure/redis/redis.service.ts:60-69 | the answer is whether the history accepts the code, and only an accepted code is consumed |
| Credentials.ClaimWindow | src/infrastructure/auth/token.service.ts:196-248 | the claim checks accept a '7d' token exactly on [iat-60, iat+604800] and a '1d' token exactly on [iat-60, min(exp+59, iat+604800)], for any delay between reading iat and exp; with the library's expiry the upper end is below exp |
| Slug.NormalizeJoinsRuns | src/core/utils/slug-generator.util.ts:78-84 | the result is the maximal [a-z0-9] runs of the lower-cased text joined by single dashes, and the last, dash-collapsing pass changes nothing |
| Slug.RunsOfWord | src/core/utils/slug-generator.util.ts:78-84 | a text of [a-z0-9] alone is one run, whole |
| Slug.RunsSplit | src/core/utils/slug-generator.util.ts:78-84 | a character outside [a-z0-9] separates: the runs of a text are those before it followed by those after it |
| Slug.NormalizeFixesCanonical | src/core/utils/slug-generator.util.ts:78-84 | the canonical strings are exactly those normalize leaves alone, so it is idempotent |
| Slug.SlugRoundTrip | src/core/utils/slug-generator.util.ts:20-60 | parsing a printed slug gives back its id if and only if the id is at least ten characters of [A-Za-z0-9_] |
| Slug.ParsesExactly | src/core/utils/slug-generator.util.ts:20-31 | from any text at all: what is read is the well-formed id after the last dash, or the whole text when it is one, and nothing otherwise |
| Slug.DistinctIdsDistinctSlugs | src/core/utils/slug-generator.util.ts:20-60 | slugs of different well-formed ids differ, whatever the names |
| Slug.FreshIdWellFormed | src/core/utils/slug-generator.util.ts:46 | an id made from a 15-character nanoid is one that survives the round trip |
| Slug.PrintedText | src/core/utils/slug-generator.util.ts:37-60 | the printed text, literally: the normalized company name, else the first name before the last, else the one there is, else 'user', each joined to the next and to the id by a dash |
| Slug.PresentMeansNotBlank | src/core/utils/slug-generator.util.ts:49-54 | a name counts if and only if it holds a character that is not one of the 25 that trim removes |
| Slug.GenerateUserSlug | src/core/utils/slug-generator.util.ts:37-60 | the loop over the name parts yields exactly that text, with the id the row had, or one made from the nanoid where it had none; the text parses back to the id |
| Slug.SlugCoherence | src/infrastructure/repositories/user.repository.ts:34-100 | over every sequence of updates that do not set slug or slugId: once assigned the id never changes, and the slug is always the printed form of the current names and id, parses back to the id |
| Slug.ProfileFields | src/infrastructure/repositories/user.repository.ts:74-100 | each name field after an update is the update's where it carries one, null included, and the stored one otherwise; the slug is the printed form of those names when the update carries any, and is treated like a field when it carries none |
| Users.UserRepository.FindByEmail | src/infrastructure/repositories/user.repository.ts:23-26 | the row with that address, or the error when there is none |
| Users.UniqueColumns | prisma/schema/user.prisma:2-10 | the table is unique if and only if ids and addresses are non-empty and no two rows share an address, a slug that is not null or a slug id that is not null |
| Users.TakenColumns | prisma/schema/user.prisma:9-10 | a profile clashes exactly when its slug or slug id is not null and stands in another row |
| Users.UserRepository.Create | src/infrastructure/repositories/user.repository.ts:28-32 | the row is added exactly when id, address and slug are free, and the table stays unique |
| Users.UserRepository.Update | src/infrastructure/repositories/user.repository.ts:34-47 | only that row changes; each of its fields, names and details key by key included, is the update's where it carries one and the stored one otherwise, and when a name is carried the slug is the printed form of the resulting names under the old id; it fails exactly when the row is missing, the new id is taken, or the slug or its id stands in another row |
| Users.ClashIsIdClash | prisma/schema/user.prisma:9-10 | where every slug is the generator's, two rows clash in the slug columns if and only if they clash in the slug id |
| Users.UserRepository.GenerateSlugForUser | src/infrastructure/repositories/user.repository.ts:74-100 | a new slug exactly when the update carries a name field of an existing user: the printed form of the carried names over the stored ones, under the old id or, where there was none, one made from the nanoid |
| Users.UserRepository.UpdateRefreshToken | src/infrastructure/repositories/user.repository.ts:59-64 | exactly the stored hash of that row is replaced, and a hash that is not null dates the last login |
| Safety.HandleStep | src/use-cases/auth/auth.use-case.ts:47-413 | every call keeps the invariant relating tokens, rows, stored codes and consumed codes, and only moves forward: rows, tokens and consumed codes stay, addresses and providers are fixed, verification never reverts, no dead refresh token revives |
| Safety.RunStep | src/use-cases/auth/auth.use-case.ts:47-413 | the same over any sequence of calls |
| Safety.Reachable | src/use-cases/auth/auth.use-case.ts:47-413 | the invariant holds in every state reachable from an empty database |
| Safety.VerifyEmailStep | src/use-cases/auth/auth.use-case.ts:196-216 | verifying with an issued session keeps the invariant and undoes nothing |
| Safety.RefreshStep | src/use-cases/auth/auth.use-case.ts:184-194 | so does a refresh, which mints from the claims of the token presented |
| Safety.FacebookStep | src/use-cases/auth/auth.use-case.ts:375-413 | so does a Facebook login, which mints a verified session unconditionally |
| Safety.ConfirmTwoFactorStep | src/use-cases/auth/auth.use-case.ts:138-159 | so does confirming two-factor, which changes the row and mints again |
| Safety.UpdateRoleStep | src/use-cases/auth/auth.use-case.ts:218-246 | so does a role change, which claims a second factor whenever 2FA is on |
| Safety.VerifyResetCodeStep | src/use-cases/auth/auth.use-case.ts:295-320 | so does exchanging a reset code for a reset token |
| Safety.CompleteResetStep | src/use-cases/auth/auth.use-case.ts:322-355 | so does setting a password with a reset token |
| Guarantees.EmailVerification | src/use-cases/auth/auth.use-case.ts:47-80 | over all runs: every session token names an existing account and its address, a verified token means a verified row, Facebook rows are verified, a password account is verified only if its code was accepted, and verification is for ever |
| Guarantees.SecondFactorProvenance | src/use-cases/auth/two-factor.use-case.ts:42-108 | over all runs: 2FA is on only where an enable code of that user was accepted, and a token claims a second factor, or a 2FA session passes the guard, only if some 2FA code of that user was accepted |
| Guarantees.PasswordProvenance | src/use-cases/auth/auth.use-case.ts:272-355 | over all runs: a password differs from its first value only if a reset code for the address was accepted; a Facebook password never changes and no reset code or token for its address ever exists |
| Guarantees.SnapshotCoherence | src/infrastructure/auth/token.service.ts:77-120 | over all call-atomic runs the one accepted refresh token of a user carries the address, 2FA flag, role, provider and verification of the current row |
| Guarantees.RefreshKeepsMeaning | src/use-cases/auth/auth.use-case.ts:184-194 | a refresh, redeemed in any reachable state, keeps every claim; the second-factor claim survives exactly on 2FA sessions |
| Guarantees.RefreshChain | src/use-cases/auth/auth.use-case.ts:184-194 | the same from end to end of a chain of refreshes of any length with any calls in between; the second-factor claim is never gained |
| Guarantees.RefreshOnce | src/infrastructure/auth/token.service.ts:178-194 | with calls atomic, a redeemed refresh token is refused in every later state |
| Guarantees.ExpiryIsPermanent | src/infrastructure/auth/token.service.ts:141-176 | a session token once accepted and later refused is refused for ever |
| Guarantees.ConsumedMeansPresented | src/use-cases/email/email.use-case.ts:32-51 | the record of consumed codes grows only when a request presents the live code of that kind and id |
| Guarantees.GrantedTokens | src/infrastructure/auth/token.service.ts:77-139 | whichever call hands out tokens: both are new, they agree on every claim but jti and lifetime (one day, seven days), copy the row as the call leaves it, carry the second-factor claim that call grants and, for a role change, the role asked for, and the refresh token becomes the accepted one, which dates the login |
| Authority.EveryChangeAuthorised | src/use-cases/auth/auth.use-case.ts:47-413 | whatever the call, each field of an existing account changes only with its authority: password by a signed reset token for the address; verification and 2FA-on by a session of that account that the guard admits on an ordinary route, so one that owes no second factor, and a live code; 2FA-off by such a session and the password; role by such a session; refresh hash and last-login date by the tokens returned; nothing else changes |
| Authority.EveryGrantEarned | src/infrastructure/auth/token.service.ts:141-176 | whatever call hands out a session, the caller earned it: by the account's password, its Facebook identity, the stored refresh token, a session of the account the guard admits on an ordinary route, a session that owes its second factor together with the live code, or by opening an account at a free address; a second factor is claimed only for a live code or an already admitted session |
| Authority.AddressIsOwn | src/presentation/controllers/auth.controller.ts:81-96 | the address in a session token leads back to the account of its subject |
| Authority.CurrentRun | src/infrastructure/repositories/user.repository.ts:59-64 | over any run the accepted refresh token stays accepted if and only if no call hands its user new tokens |
| Authority.RedeemableUntil | src/infrastructure/auth/token.service.ts:77-92 | a refresh token handed out by any call is redeemable after any further calls if and only if seven days have not passed and its user was handed no new tokens |
| EndToEnd.UndisturbedRun | src/infrastructure/redis/redis.service.ts:55-101 | a stored code survives any run in which no call both changes the state and replaces or presents it: wrong guesses, forged or refused sessions and other users' calls included |
| EndToEnd.DisturbedIsLost | src/infrastructure/redis/redis.service.ts:55-101 | the calls left out are exactly the ones that matter: each of them removes the code or stores a new one in its place |
| EndToEnd.EmailConfirmation | src/use-cases/auth/auth.use-case.ts:47-80 | sign-up gives an unverified session; the code sent, submitted with it within 300 s whatever happened in between, verifies the account and gives a verified session, once |
| EndToEnd.UnverifiedRun | src/use-cases/email/email.use-case.ts:32-41 | until the code is presented or replaced nothing verifies the account |
| EndToEnd.TwoFactorLogin | src/use-cases/auth/auth.use-case.ts:82-136 | a login with 2FA on, then the code within 300 s whatever happened in between, yields an access token the guard admits on every route without required permissions, while both login tokens are refused in every state on every guarded route outside the two-factor exchange |
| EndToEnd.TwoFactorOnAndOff | src/use-cases/auth/two-factor.use-case.ts:19-86 | enabling and confirming make later logins owe a second factor; the confirmed session is admitted and, with the password, turns it off, after which a login alone is admitted |
| EndToEnd.PasswordReset | src/use-cases/auth/auth.use-case.ts:272-355 | a reset code used within 300 s buys a reset token that within 900 s sets the password: the new one logs in, any other is refused, and no other part of any account changed in that last call |
| EndToEnd.RoleChangeLosesNothing | src/use-cases/auth/auth.use-case.ts:218-246 | a customer who changes role loses nothing: wherever the old session was let through, the session returned is |
| Accounts.PasswordAccount | src/use-cases/auth/auth.use-case.ts:47-80 | a sign-up that succeeds opens a password account with the address and password given, unverified, without a role, 2FA off and no other account touched; after any further calls by anyone in which no reset token sets another password for the address, that password logs into that account and every other is refused |
| Accounts.FacebookAccount | src/use-cases/auth/auth.use-case.ts:375-413 | a Facebook login at a free address opens a verified Facebook account whose password is the one passed in; after any further calls by anyone Facebook logs into it, only that password does, and neither a sign-up nor a reset request for the address succeeds |
| Accounts.OpenCallsSucceed | src/use-cases/auth/auth.use-case.ts:47-413 | when each call that needs no session succeeds: sign-up, login, Facebook login, and the three calls of a password reset, each if and only if the rows, the live codes or the reset token say so |
| Accounts.SessionCallsSucceed | src/use-cases/auth/auth.use-case.ts:138-270 | when each call of a session succeeds: the session is admitted, and the live code, the password or the state of the account is what the call asks for |
| Accounts.NothingMintedUnseen | src/infrastructure/auth/token.service.ts:77-139 | every token a call mints is in its answer, and only time makes time pass |
| Accounts.SecondFactorResent | src/use-cases/auth/two-factor.use-case.ts:88-131 | a session admitted to the two-factor exchange has its code sent again: the code before is refused, and the new one, undisturbed and within 300 s, gives a session admitted everywhere |
| Accounts.VerificationResent | src/use-cases/auth/auth.use-case.ts:248-270 | an admitted session of an unverified account has its code sent again: the code before is refused, and the new one, undisturbed and within 300 s, verifies the account |
| Departures.FacebookEnableCode | src/use-cases/auth/two-factor.use-case.ts:114-126 | in one call, an enable code appears for a Facebook account if and only if an admitted session of its own asks for the code to be resent |
| Departures.FacebookTurnsOn | src/use-cases/auth/two-factor.use-case.ts:114-126 | the resent code turns two-factor on for any Facebook account with an admitted session |
| Departures.FacebookOnlyByResend | src/use-cases/auth/two-factor.use-case.ts:19-65 | over all runs a Facebook account has two-factor on only if an admitted session of its own had an enable code resent |
| Departures.ResetAnswer | src/use-cases/auth/auth.use-case.ts:272-293 | a reset request answers success if and only if the address is that of a password account, and is refused otherwise |
| Departures.BearerUntilExpiry | src/infrastructure/common/guards/router-permissions.guard.ts:82-95 | after any further calls the guard admits the access token of any grant exactly for one day and its refresh token exactly for seven, wherever the second factor is settled |
| Departures.GuardCannotTell | src/infrastructure/common/guards/router-permissions.guard.ts:32-127 | while the access token lives, the guard decides alike for both on every route |
| Departures.AccessNeverRefreshes | src/infrastructure/auth/token.service.ts:178-194 | an access token handed out by any call is never accepted as a refresh token in any later state |
| Snapshots.SnapshotExact | src/infrastructure/auth/token.service.ts:94-120 | under every interleaving, accounts opened meanwhile included, a token's role agrees with its owner's row if and only if the role was not changed to something else since the token was minted, and a claim passed in as an argument if and only if it was not since it was last read from the row, which for a refresh is before the whole chain of refreshes |
| Snapshots.StaleSnapshot | src/use-cases/auth/auth.use-case.ts:218-246 | in every reachable state a refresh that mints before and stores after a role change leaves an accepted token with the old role |
| Snapshots.StaleClaim | src/use-cases/auth/auth.use-case.ts:184-194 | in every reachable state a change of a passed-in claim that lands between a refresh's last check and its mint is missed by the token minted |
| Interleaving.PlayKeeps | src/use-cases/auth/auth.use-case.ts:47-413 | under any interleaving of calls at their awaits, the part of the invariant that needs no atomicity and what every call in flight relies on are kept, and rows, tokens and consumed codes only move forward |
| Interleaving.EmailVerificationAnyway | src/use-cases/auth/auth.use-case.ts:47-80 | under every interleaving: a session token carries its own account's address and says verified only of a verified account, Facebook accounts are verified, a password account only by an accepted code, and verification is for ever |
| Interleaving.SecondFactorAnyway | src/use-cases/auth/two-factor.use-case.ts:42-108 | under every interleaving: 2FA is on, and a token claims a second factor, only where a code of that user was accepted |
| Interleaving.PasswordAnyway | src/use-cases/auth/auth.use-case.ts:272-355 | under every interleaving: a password differs from its first value only after an accepted reset code for the address; a Facebook account keeps its password for ever and no reset code or token for it exists |
| Provenance.EveryWriteAuthorised | src/use-cases/auth/auth.use-case.ts:47-413 | under every interleaving, whatever a step does to an existing account, the call that does it arrived with the authority: a password by a reset token for the address signed when the call began; verification and 2FA-on by a session of the account admitted when the call began and a code that was live when compared; 2FA-off by such a session and the password; role by such a session; the stored hash only for tokens whose caller earned them; nothing else changes |
| Provenance.NotesKeep | src/use-cases/auth/auth.use-case.ts:47-413 | at any point of any interleaving, what each call is about to do follows from its request, the state its first step saw and the state its code or password was compared in |
| Renewal.AcceptedIsLastStored | src/infrastructure/auth/token.service.ts:178-194 | from an empty database, under every interleaving of all calls, the accepted refresh token of an account is the one last stored for it, so there is at most one |
| Renewal.AcceptedUntilStore | src/infrastructure/auth/token.service.ts:77-92 | an accepted token stays accepted over further steps if and only if no token is stored for its account in them |
| Renewal.StatusNeverGoesBack | src/infrastructure/repositories/user.repository.ts:59-64 | under every interleaving a token goes unwritten, accepted, dead, and only in that direction; a dead token is never accepted again |
| Renewal.LastCheck | src/infrastructure/auth/token.service.ts:141-176 | a refresh call past the guard with a token accepted earlier goes on to mint if and only if nothing was stored for the account meanwhile and the token is not too old, and then passes that token's claims on |
| Renewal.Reachable | src/infrastructure/auth/token.service.ts:77-92 | in every state reached by any interleaving, a token that is minted but not yet stored is held by one call and accepted by nobody |
| Interleaving.MintSomeKeeps | src/infrastructure/auth/token.service.ts:77-92 | minting the two tokens side by side, each from its own reading of the row, and storing the hash later is safe with arguments read earlier |
| Schedules.AtomicIsProtocol | src/use-cases/auth/auth.use-case.ts:47-413 | a call that runs with nobody in between, from any state of the interleaved machine, leaves the state and gives the answer of one step of the atomic protocol, whichever of its two tokens it mints first; the other order only exchanges their numbers |
| Schedules.OtherOrder | src/infrastructure/auth/token.service.ts:83-86 | minting the refresh token first changes the outcome of any call that finishes only in the numbers of the two tokens |
| Schedules.DoubleRedemption | src/use-cases/auth/auth.use-case.ts:184-194 | from every state reached by any interleaving, two calls presenting the same accepted and unexpired refresh token can both be handed tokens, and the first one's refresh token is then dead |
| Services.TokenService.CreateTokens | src/infrastructure/auth/token.service.ts:77-92 | the two tokens and the new stored hash are those of the step function, the other rows untouched |
| Services.TokenService.ValidateRefreshToken | src/infrastructure/auth/token.service.ts:178-194 | accepts exactly the token whose hash the user's row stores |
| Services.TokenService.VerifyToken | src/infrastructure/auth/token.service.ts:141-176 | accepts exactly a minted, unexpired session token of an existing user with valid claims, as a refresh token only the stored one, and with requireMfa none at all |
| Services.TokenService.VerifyPasswordResetToken | src/infrastructure/auth/token.service.ts:275-298 | yields the address of a minted, unexpired reset token and of nothing else |
| Services.EmailUseCase.VerifyEmailCode | src/use-cases/email/email.use-case.ts:32-41 | consumes the code, verifies the addressed row when it was not, and reports which |
| Services.TwoFactorUseCase.InitiateEnable | src/use-cases/auth/two-factor.use-case.ts:19-40 | stores an enable code exactly for an existing password account with 2FA off |
| Services.TwoFactorUseCase.ConfirmEnable | src/use-cases/auth/two-factor.use-case.ts:42-65 | turns 2FA on exactly when the enable code is accepted |
| Services.TwoFactorUseCase.Disable | src/use-cases/auth/two-factor.use-case.ts:67-86 | turns 2FA off exactly when the password verifies |
| Services.AuthUseCase.SignUp | src/use-cases/auth/auth.use-case.ts:47-80 | new state and answer are those of the sign-up step |
| Services.AuthUseCase.Login | src/use-cases/auth/auth.use-case.ts:82-113 | new state and answer are those of the login step |
| Services.AuthUseCase.VerifyTwoFactor | src/use-cases/auth/auth.use-case.ts:115-136 | new state and answer are those of the second-factor step, an unknown user included |
| Services.AuthUseCase.ConfirmTwoFactor | src/use-cases/auth/auth.use-case.ts:138-159 | new state and answer are those of the 2FA confirmation step, an unknown user included |
| Services.AuthUseCase.DisableTwoFactor | src/use-cases/auth/auth.use-case.ts:161-182 | new state and answer are those of the 2FA removal step, an unknown user included |
| Services.AuthUseCase.RefreshTokens | src/use-cases/auth/auth.use-case.ts:184-194 | new state and answer are those of the refresh step |
| Services.AuthUseCase.VerifyEmailCode | src/use-cases/auth/auth.use-case.ts:196-216 | new state and answer are those of the verification step, the already verified account included |
| Services.AuthUseCase.UpdateUserRole | src/use-cases/auth/auth.use-case.ts:218-246 | new state and answer are those of the role step, an unknown user included |
| Services.AuthUseCase.ResendVerificationCode | src/use-cases/auth/auth.use-case.ts:248-270 | new state and answer are those of the resend step |
| Services.AuthUseCase.InitiatePasswordReset | src/use-cases/auth/auth.use-case.ts:272-293 | new state and answer are those of the reset request step |
| Services.AuthUseCase.VerifyPasswordResetCode | src/use-cases/auth/auth.use-case.ts:295-320 | new state and answer are those of the reset code step |
| Services.AuthUseCase.CompletePasswordReset | src/use-cases/auth/auth.use-case.ts:322-355 | new state and answer are those of the reset completion step |
| Services.AuthUseCase.FacebookAuth | src/use-cases/auth/auth.use-case.ts:375-413 | new state and answer are those of the Facebook step |
| Services.AuthController.Handle | src/presentation/controllers/auth.controller.ts:43-245 | every call through the classes is one step of the protocol, and keeps the invariant |
| PathRegex.CompilePreservesMeaning | src/infrastructure/auth/router/route-permissions.registry.ts:188-194 | for a pattern without metacharacters outside its parameters, the compiled text accepts a path if and only if both split on '/' into equally many segments, literal segments are equal and a parametric segment is its literal prefix followed by at least one character |
| PathRegex.EngineMatches | src/infrastructure/auth/router/route-permissions.registry.ts:188-194 | so for such patterns the engine's answer is the segment-wise reading, whatever else the engine does |
| PathRegex.FaithfulIffNoDot | src/infrastructure/auth/router/route-permissions.registry.ts:188-194 | for patterns whose only metacharacters are dots, the compiled text agrees with that reading on every path if and only if there is no dot outside the parameters |
| PathRegex.ParseCompile | src/infrastructure/auth/router/route-permissions.registry.ts:191-193 | the text built by the two replacements parses to the expected sequence of literals and segment groups |
| PathRegex.AcceptsIsPathMatches | src/infrastructure/auth/router/route-permissions.registry.ts:188-194 | matching that sequence against a path is the segment-wise reading |
| Registry.RouteKeyInjective | src/infrastructure/auth/router/route-permissions.registry.ts:179-181 | two routes share a key only if their paths are equal and their upper-cased methods are |
| Registry.TableIsLatest | src/infrastructure/auth/router/route-permissions.registry.ts:36-44 | the value under a key is the latest registration of that method and path |
| Registry.PatternsAreExact | src/infrastructure/auth/router/route-permissions.registry.ts:36-44 | after any registrations the pattern map holds exactly the parametric keys, once each, each with the expression compiled from its own path |
| Registry.FindIsFirstPattern | src/infrastructure/auth/router/route-permissions.registry.ts:69-75 | scanning the pattern map in insertion order finds the matching path registered first |
| Registry.PatternsByKey | src/infrastructure/auth/router/route-permissions.registry.ts:36-44 | for any method text, the pattern map lists the parametric keys in order of first registration, each with the expression of the latest parametric path under it |
| Registry.KeyLookupIsLookup | src/infrastructure/auth/router/route-permissions.registry.ts:60-92 | where no method holds a colon, looking up by key is looking up by method and path |
| Registry.KeysFaithfulIffNoColon | src/infrastructure/auth/router/route-permissions.registry.ts:179-181 | for a method text, looking up by key is looking up by method and path, for all registrations under it and all requests, if and only if the text has no colon |
| Registry.UpperMeansSameVerb | src/infrastructure/auth/router/route-permissions.registry.ts:179-181 | upper-casing identifies two methods exactly when they differ only in the case of ASCII letters |
| Registry.LookupAnswers | src/infrastructure/auth/router/route-permissions.registry.ts:60-92 | for patterns without metacharacters: the latest registration of the method and path; without one, the latest registration of the first parametric path of the method that fits segment by segment; without that, the same two questions for ALL; else nothing |
| Registry.OneAnswer | src/infrastructure/auth/router/route-permissions.registry.ts:60-92 | that description leaves no choice: two answers that meet it are equal |
| Registry.RoutePermissionsRegistry.Register | src/infrastructure/auth/router/route-permissions.registry.ts:36-44 | the two maps are those of the registration list with this entry appended; when the expression does not compile only the rule is stored |
| Registry.RoutePermissionsRegistry.RegisterMany | src/infrastructure/auth/router/route-permissions.registry.ts:50-52 | the two maps are those of the list with all entries appended in order, unless some expression does not compile, at the first of which it stops |
| Registry.RoutePermissionsRegistry.GetRoutePermission | src/infrastructure/auth/router/route-permissions.registry.ts:60-92 | for any method text the maps answer as the latest registrations by key do; for colon-free methods as the list of registrations does; and, where no pattern has a metacharacter outside its parameters, entry by entry as `LookupAnswers` says |
| Registry.RoutePermissionsRegistry.GetRequiredPermissions | src/infrastructure/auth/router/route-permissions.registry.ts:144-160 | the permissions the rule found by that specification asks for, listed or by group |
| Registry.RoutePermissionsRegistry.RequiresAllPermissions | src/infrastructure/auth/router/route-permissions.registry.ts:168-171 | true unless the rule found says otherwise, an unregistered route included |
| RouteTree.FlattenRoutes | src/infrastructure/auth/router/route-permissions.config.ts:5-27 | the nested loops produce the flattening of the whole tree in order |
| RouteTree.FlattenIsDeclared | src/infrastructure/auth/router/route-permissions.config.ts:5-27 | an entry is in the result if and only if some node declares that method, rule and full path, and there is one entry per node and method |
| RouteTree.FlattenAppend | src/infrastructure/auth/router/route-permissions.config.ts:8-24 | flattening distributes over concatenation of trees |
| RouteTree.FlattenBase | src/infrastructure/auth/router/route-permissions.config.ts:9 | flattening under base b + t is prefixing b onto flattening under t |
| RouteTree.FlattenNode | src/infrastructure/auth/router/route-permissions.config.ts:8-24 | a node's own methods come first, in the order declared, then its children's entries |
| RouteTree.TreeRoundTrip | src/infrastructure/auth/router/route-permissions.config.ts:5-31 | with distinct upper-cased method and full path, registering the flattened tree makes lookup of a declared route return exactly what its node declares |
| RouteTree.ConcretePath | src/infrastructure/auth/router/route-permissions.registry.ts:60-92 | over all four tiers: a path gets the node that declares it for the method, else the first node of the method in flattening order that matches it segment by segment, else the node that declares it for ALL, else the first matching ALL node, else nothing |
| RouteTree.LoadTree | src/infrastructure/auth/router/route-permissions.config.ts:29-31 | loading a tree succeeds exactly when every declared expression compiles, and then appends exactly its flattening to what is registered |
| Permissions.ManagersCanDoMore | src/core/interfaces/auth/permissions.interface.ts:94-129 | any permission list a customer passes, by all or by any, a landlord and an agent pass |
| Permissions.RoleContents | src/core/interfaces/auth/permissions.interface.ts:94-129 | what each role holds, permission by permission; landlords and agents hold the same |
| Permissions.GroupContents | src/core/interfaces/auth/permissions.interface.ts:54-91 | what each group holds, permission by permission |
| Permissions.ManagersAgainstGroups | src/core/interfaces/auth/permissions.interface.ts:54-129 | apart from updating a booking, landlords and agents hold exactly the permissions of the five groups that are not the administrator's |
| Permissions.NobodyMay | src/core/interfaces/auth/permissions.interface.ts:54-129 | no role may update a booking, manage users or see the system's statistics |
| Permissions.CacheKeyInjective | src/infrastructure/auth/permission.service.ts:21-26 | two (role, permission) pairs share a cache key only if they are the same pair |
| Permissions.CacheKeyTexts | src/infrastructure/auth/permission.service.ts:22 | the text of every cache key |
| Permissions.PermissionService.HasPermission | src/infrastructure/auth/permission.service.ts:21-35 | after any history of calls the answer is the table's, cached or not, and the cache stays truthful |
| Permissions.PermissionService.HasAllPermissions | src/infrastructure/auth/permission.service.ts:43-45 | true if and only if the table grants every listed permission |
| Permissions.PermissionService.HasAnyPermission | src/infrastructure/auth/permission.service.ts:53-55 | true if and only if the table grants some listed permission |
| Guard.RoleMonotone | src/infrastructure/common/guards/router-permissions.guard.ts:98-126 | whatever rule the registry finds, wherever the guard lets a customer's session through it lets a landlord's or agent's session through that is admitted where the customer's is, whoever the two belong to and whenever they are presented |
| Guard.DecisionExactly | src/infrastructure/common/guards/router-permissions.guard.ts:32-127 | the decision in the decorators' marks and the rule's own fields: without a session if and only if one of them says public, admin or refresh; else the missing token; else the refused one, the second factor waived only by a two-factor mark; then the rule's list, or its group's, all of it or some where the rule says so, against the role's table, with the missing role and the missing permission told apart |
| Guard.RouterPermissionsGuard.CanActivate | src/infrastructure/common/guards/router-permissions.guard.ts:32-127 | the staged early exits decide exactly what marks, registered rule, token state and role tables say, with the error of the first stage that fails |
| RoleConfig.ResetErases | src/infrastructure/auth/role-config.service.ts:99-114 | whatever came before a reset of a role, or of all, has no effect on that role |
| RoleConfig.LastSettles | src/infrastructure/auth/role-config.service.ts:52-75 | a permission's presence is decided by the last operation that concerns it |
| RoleConfig.NeverSettled | src/infrastructure/auth/role-config.service.ts:20-27 | with no such operation it is the static table's |
| RoleConfig.ListOrder | src/infrastructure/auth/role-config.service.ts:34-114 | the order of the list: an addition goes last, additions and removals leave the order of the rest, a reset lists the defaults by first occurrence |
| RoleConfig.RoleConfigService.GetPermissionsForRole | src/infrastructure/auth/role-config.service.ts:34-45 | the list is the replay of the whole history over the static defaults, in insertion order and without repetition, for any static table |
| RoleConfig.RoleConfigService.HasPermission | src/infrastructure/auth/role-config.service.ts:83-93 | agrees with membership in that set |
| RoleConfig.RoleConfigService.AddPermissionToRole | src/infrastructure/auth/role-config.service.ts:52-59 | appends the addition to the history the sets replay |
| RoleConfig.RoleConfigService.RemovePermissionFromRole | src/infrastructure/auth/role-config.service.ts:66-75 | appends the removal to the history the sets replay |
| RoleConfig.RoleConfigService.ResetRoleToDefault | src/infrastructure/auth/role-config.service.ts:99-106 | appends the reset to the history the sets replay |
| RoleConfig.RoleConfigService.ResetAllRolesToDefault | src/infrastructure/auth/role-config.service.ts:111-114 | appends the reset of every role to the history the sets replay |

## Left out

- Guarantees.RefreshOnce: holds with each call atomic; under interleaving single use fails, as `Schedules.DoubleRedemption` shows.
- CodeStore.SingleUse: each verify is one step; in the source the get and the delete are separate commands, so two overlapping verifications of one code could both succeed.
- Registry.RoutePermissionsRegistry.GetRoutePermission: upper-casing is modelled on ASCII letters only, all an HTTP method holds (sections 5.6.2 and 9.1 of RFC 9110).
- PathRegex.CompilePreservesMeaning: of regular expressions only literals, the dot, the escaped slash and the segment group are read; what an expression with any other metacharacter outside its parameters accepts is left to the engine and outside the theorem.
- RouteTree.FlattenRoutes: `Object.entries` is taken to give methods in declaration order, and absent `methods` or `children` are empty lists; an absent boolean mark is false.
- Services.TokenService.CreateTokens: the display claims (avatar, names, tokenVersion) are not part of a token.
- `Interleaving`, `Provenance`, `Renewal`, `Schedules` and `Snapshots` are on values, as machines of interleaved steps rather than classes, because the interleaving is that of the awaits; `Snapshots` tracks two mutable fields of a row, one of each way a claim reaches a token.
- Real argon2, RS256, jose, Prisma and ioredis; loading and expiry of the signing key, and several processes each generating one.
- Schema validation beyond the facts used: which fields an update may carry and that absent ones stay absent.
- Failed mail delivery, which in the source can make a call fail after its code was stored.
- The admin guard and the admin token service, the decorators' metadata lookup, reading the Authorization header.
- `isValidSlug`, `getPermissionsInGroup`, `getUserPermissions`, pagination and other one-line helpers: easy members only.
- S3, Elasticsearch, reCAPTCHA, mail providers, templates, Swagger, logging, CORS, rate limiting, health checks.
