# Refresh-token rotation, modelled and proved

svc-auth hands a browser a short-lived access token and a refresh token. Each refresh token is used
once: exchanging it stores its successor, marks the old row used by a compare-and-swap on the
row's revision, and a second use of the same token revokes the whole family. This project models
that protocol over its revisioned key-value bucket, with any number of requests interleaving, and
proves what it guarantees. It also models the code around it: the sequential store and handlers,
the cookies that carry the tokens through a browser, the JWKS cache, and the sealed bearer index.

`dafny verify dfyconfig.toml` checks everything.

## How the pieces fit

- `Protocol` is a transition system. Every key-value operation of every request is one event.
  The environment may let it fail, lose its acknowledgement, return an old version of a row, crash
  the request, let time pass, and expire bucket entries that are older than the retention.
- `Invariant` proves what every step keeps; `Safety`, `Retry`, `Retention` and `Residue` state
  what follows for every run. `Counterexamples` builds the runs that break a promise, which makes the
  conditions of the others exact.
- `RefreshStore`, `Handlers` and `Sessions` are the code as it is written, over one mutable bucket
  with string keys. `RefreshStore` proves that the bucket behaves as two independent maps;
  `SequentialRun` and `AttemptRun` prove that each of these operations, run alone, is a run of `Protocol`,
  and `Comeback` what such an operation answers, exactly, in every reachable state. `HttpAnswers` says in
  terms of HTTP what a refresh attempt answers, for every store, every text and every failure.
- `AccessLifetime` joins `Jwt` to the runs: how long the verifier accepts what a revoked family was given.
- `Cookie`, `Jwt`, `Jwks` and `Bearer` cover the code around the protocol, and `Chain` joins it: a browser
  that comes back with its cookies, turn after turn. `Text`, `UuidText`, `Sets`, `Kv` and `Types` hold
  what they share.

## Assumptions

- Fresh UUIDs never collide, and a client presents only a refresh token that was handed out.
- A conditional write is accepted exactly when the stored revision of that key is the given one;
  every write takes a new, larger revision. An entry is removed by age only once it is as old as the retention.
- A row read may be stale. A read of a revocation marker that answers is current; one that fails
  answers "not revoked", as the code has it.
- There is one clock, in whole seconds. The clock readings inside one local step coincide.
- Signatures and the AEAD are ideal, and the hash of a bearer token has no collisions.
- A browser stores and sends cookies as RFC 6265 says, and a cookie with a Max-Age is sent
  strictly before that many seconds have passed.

What each result needs beyond that is in its `requires`: the results of `Safety` and `Retry` hold at
any speed. How long entries are kept, how prompt the requests of a family are, and whether its
revocation checks are answered decide the rest, and the exact conditions are theorems: see below.

## Where the code falls short of what is promised

Here, in the table below and in the comments, `README.md` and a line number mean the file at the root of
the service's repository, not this one.

- `README.md:83` says that after any error of `mark_used` other than a conflict the old token stays
  unused and the client safely retries. That holds if and only if the write was not applied
  (`Retry.RetryAfterCasError`). When it was applied and only the acknowledgement was lost, or the
  process died before it answered, the retry is taken for reuse and the family is revoked
  (`Comeback.UsedTokenRevokes`; `Counterexamples.LostAckDooms` is a whole such run), and no later request
  with that token ever succeeds (`Comeback.LostAckLosesTheToken`). On the silent path there is no retry at all, since every failure clears both cookies (`Handlers.OnlyTheExplicitPathKeepsTheToken`).
- `charts/br-svc-auth/README.md:28` asks for a bucket `max_age` aligned to the refresh lifetime. That
  is too short twice over. A token presented in its last valid seconds can lose its row between lookup
  and compare-and-swap, and an innocent client is then revoked: no false revocation happens exactly when
  the retention exceeds lifetime + 5 + the time a rotation of that family takes
  (`Counterexamples.RevocationIsEarnedExactly`). And a marker can expire while a token minted around the
  revocation still verifies, so a revoked family gets cookies again.
- A revocation check that meets a read error answers "not revoked" (`src/refresh_store.rs:88-96`), so one
  such answer brings a revoked family back, however long markers are kept
  (`Counterexamples.UnansweredCheckRevives`). With the point above this is all: a revoked family never gets
  cookies again exactly when the retention exceeds lifetime + 5 + the two delays of a request and none of
  that family's checks since the revocation goes unanswered (`Counterexamples.RevocationIsFinalExactly`).
- `README.md:63` promises a silent refresh on expired access tokens. The access cookie's Max-Age is the
  token's lifetime (`src/main.rs:96-100`) and the verifier grants 5 seconds more, so a browser has dropped
  the cookie before the service would call its token expired, unless the cookies arrived more
  than 6 seconds after signing (`Handlers.SilentPathNeedsALateDelivery`).
- `README.md:80` says that the cooldown floor keeps JWKS storm protection always on. A failed fetch does
  not stamp the time, so while the endpoint fails nothing limits the fetches (`Jwks.FailuresAreNotLimited`).
  Fetches that do not fail are bounded as promised, hung ones included (`Jwks.FetchBound`), each failure
  adds at most one (`Jwks.FailuresAddUp`), and the bound holds for all fetches exactly in runs without a
  failure (`Jwks.StartsAreBoundedExactly`).
- `extract_cookie` reads nothing from a Cookie header that has a byte outside visible ASCII
  (`src/cookie.rs:98`), so one such cookie of anybody silences both tokens
  (`Cookie.OneForeignCookieSilences`); they come back exactly when all that is sent is visible
  (`Cookie.CookieRoundTrip`).
- `verify_access_token` asks for no claim that a refresh token lacks (`src/jwt.rs:64-79`), so a refresh
  token passes for its whole lifetime (`Jwt.RefreshVerifiesAsAccess`). After a revocation the tokens signed
  as access tokens die out in one access lifetime (`Residue.AccessDiesWithItsFamily`), but the verifier may
  go on accepting the family's refresh tokens (`AccessLifetime.TokenTwoOutlives`). All it accepts ends with
  the longer of the two lifetimes (`AccessLifetime.AccessVerifierForgets`), and ends with the access lifetime
  exactly when the refresh lifetime is no longer (`AccessLifetime.AccessEndsInTimeExactly`).

## Model

| member | source | states |
|---|---|---|
| Safety.SingleLiveToken | src/rotation.rs:15-40 | In every reachable state a family has at most one token that a client holds and no applied conditional write has used up |
| Safety.AtMostOneWinner | src/rotation.rs:30-38 | At most one request ever has its conditional write of a given token applied or is told Ok, however stale the row it read |
| Safety.TwoVersionsPerRow | src/refresh_store.rs:59-75 | A row has one version as created and at most one as used, the used one written later and differing only in its two marks |
| Safety.DoublePresentationCaught | src/rotation.rs:21-36 | When two rotations of one token both ended without a store error and their revocations were written, the family is revoked, and marked so unless the marker outlived the retention |
| Safety.DeliveryIsDurable | src/refresh.rs:113-151 | When a refresh cookie is about to be set, its row is stored, unused, never handed out, with the family and email of the JWT |
| Safety.IdentityContinuity | src/refresh.rs:102-120 | Every access token, refresh token and row of a family carries the email verified at its login, along any chain of rotations |
| Safety.LinearHistory | src/rotation.rs:28-31 | The replaced-by links of a family form one path from its login row with increasing creation revisions and an unused end; every token ever handed out or used is on it |
| Safety.LinksAreOneToOne | src/rotation.rs:28-31 | A row names one replacement, a row replaces one row, both of one family, and the replacement was stored after the row it replaces and before that row was marked used |
| Safety.ReachableInv | src/rotation.rs:15-40 | Every state of every run satisfies the protocol's invariant |
| Invariant.StepKeeps | src/rotation.rs:15-40 | Every event, with any fault, keeps the invariant and only adds to the recorded history |
| Invariant.CasHitsFirstVersion | src/refresh_store.rs:59-75 | A conditional write is accepted only against the row as it was created, which has not been used before |
| Invariant.CasMiss | src/rotation.rs:32-37 | A conditional write is refused only because the row was already used or had reached the retention age |
| Invariant.PutKeeps | src/refresh_store.rs:43-46 | Storing a successor under any fault keeps the invariant: its row is new, and no line of a family is changed by it |
| Invariant.CasKeeps | src/refresh_store.rs:59-75 | Marking a row used under any fault keeps the invariant: the family's one live token moves to the successor |
| Invariant.RevokeKeeps | src/refresh_store.rs:77-86 | Writing a marker under any fault keeps the invariant and records who caused the revocation |
| Invariant.SignKeeps | src/jwt.rs:81-95 | Signing a pair keeps the invariant: the new token belongs to the family and email of the presented one |
| Invariant.LogInKeeps | src/token.rs:75-93 | Opening a family keeps the invariant |
| Invariant.ExpireTokenKeeps | charts/br-svc-auth/README.md:28 | The bucket dropping an aged row keeps the invariant |
| Invariant.ExpireMarkerKeeps | charts/br-svc-auth/README.md:28 | The bucket dropping an aged marker keeps the invariant |
| Retention.RevocationHasCause | src/rotation.rs:21-36 | With no bound on time: a revoked family had a logout that wrote the revocation, a token that one rotation used up and another presented, or a rotation taken for reuse whose row had reached the retention age |
| Retention.NoFalseRevocation | src/rotation.rs:21-36 | With retention over lifetime + 5 + the rotation time of that family, a family is revoked only by a logout, or when a token that one rotation used up was presented to another |
| Counterexamples.RevocationIsEarnedExactly | charts/br-svc-auth/README.md:28 | That promise holds, for every family of every run, if and only if the retention exceeds that bound |
| Counterexamples.ExpiredRowRevokes | src/rotation.rs:32-37 | At or below the bound a client that presented one token once is revoked |
| Retention.CheckRefuses | src/refresh.rs:94-100 | An answered revocation check of a revoked family refuses, even when the marker may already be gone |
| Retention.RevocationIsFinal | src/refresh.rs:94-129 | With retention over lifetime + 5 + both delays of that family's requests and its checks since the revocation answered, no request that had not passed the check when the revocation was recorded ever gets cookies, whatever happens to other families |
| Counterexamples.RevocationIsFinalExactly | src/refresh_store.rs:88-96 | With at most k unanswered checks of the family since its revocation, that promise holds in every run if and only if the retention exceeds that bound and k is zero |
| Counterexamples.ExpiredMarkerRevives | charts/br-svc-auth/README.md:28 | At or below the bound a request gets cookies for a family revoked long before it was presented, with every check answered |
| Counterexamples.UnansweredCheckRevives | src/refresh_store.rs:88-96 | For every retention and with every request prompt, one unanswered check gives cookies to a request presented after the revocation |
| Residue.ResidueIsBounded | src/refresh.rs:94-122 | The rotations that succeed after a revocation are among the requests that were past the check when it was recorded |
| Residue.LateWinnerWasInFlight | src/auth_check.rs:94-129 | A request that rotates a token of a revoked family was between check and compare-and-swap at the revocation |
| Residue.AccessDiesOut | src/jwt.rs:52-62 | Once those requests have signed or ended, no token signed as an access token of the family verifies later than access lifetime + 5 seconds |
| Residue.AccessDiesWithItsFamily | src/jwt.rs:52-62 | Without waiting for those requests: no token signed as an access token of a revoked family verifies later than the revocation + a signing delay + access lifetime + 5 seconds |
| Residue.RefreshDiesOut | src/jwt.rs:81-112 | No refresh token ever minted for a revoked family verifies later than the revocation + a signing delay + refresh lifetime + 5 seconds |
| AccessLifetime.AccessVerifierForgets | src/jwt.rs:64-79 | Nothing signed for a revoked family, as an access or as a refresh token, passes the access verifier after the revocation + a signing delay + the longer lifetime + 5 seconds |
| AccessLifetime.AccessEndsInTimeExactly | src/jwt.rs:64-79 | Given the retention that finality needs, that earlier bound holds for everything the access verifier accepts, in every run, if and only if the refresh lifetime does not exceed the access lifetime |
| AccessLifetime.TokenTwoOutlives | src/jwt.rs:64-79 | With a longer refresh lifetime a reachable run has a token handed out to a client of a revoked family that the access verifier accepts past that bound |
| Retry.UndisturbedRequestSucceeds | src/rotation.rs:28-38 | From every state with a rotatable token there is a run, on either path, in which one request exchanges it for a rotatable token of the same family and email |
| Retry.LaterRequestSucceeds | src/rotation.rs:28-38 | There is such a run also after any run in which nothing spoils the token |
| Comeback.AttemptAnswersExactly | src/refresh.rs:76-129 | In every reachable state the undisturbed attempt with a token that was handed out succeeds if and only if the token is rotatable, and reports reuse if and only if it is used, unexpired, stored and its family not revoked |
| Comeback.SuccessRotates | src/rotation.rs:28-31 | That success marks the row used, naming the successor, stores the successor unused with the family and email of the token, and changes no other row and no marker |
| Comeback.LaterAttemptSucceeds | README.md:83 | After any run in which nothing spoils a rotatable token, whatever crashes, failures, stale reads, waits and other requests it holds, the undisturbed attempt on either path succeeds |
| Retry.OnlySpoilersSpoil | README.md:83 | An event takes a rotatable token away if and only if it is its JWT expiring, its row expiring, an applied conditional write of its row or an applied revocation of its family |
| Retry.RetryAfterCasError | README.md:83 | After a conditional write that reported an error the old token is rotatable if and only if the write was not applied, and used if and only if it was |
| Retry.UsedTokenDooms | README.md:83 | From every state in which a client holds a used token of a family not revoked there is a run in which its retry revokes the family |
| Comeback.UsedTokenRevokes | src/rotation.rs:21-26 | The undisturbed attempt with a used token leaves its family revoked, by a marker of the current time if it had none, and changes no row |
| Comeback.UsedNeverRotatesAgain | src/refresh_store.rs:59-75 | Once a row is used, in every continuation and under any faults no later request with its token has its write applied, is told that it rotated or gets cookies |
| Comeback.LostAckLosesTheToken | README.md:83 | After a conditional write that was applied and not acknowledged, no later request with that token ever gets cookies |
| Counterexamples.LostAckDooms | README.md:83 | In every deployment a reachable run: a client's rotation loses the acknowledgement, the client retries with the token it holds, and its family is revoked |
| Retry.UnusedMatches | src/refresh_store.rs:48-57 | While a row is unused and stored, every version of it ever written is the current one, so no read of it is stale |
| RefreshStore.KeysApart | src/refresh_store.rs:103-109 | Distinct ids have distinct keys, no row key is a marker key, and each starts with its prefix |
| RefreshStore.PutTokenRefines | src/refresh_store.rs:43-46 | Writing a row into the one bucket is a write to the token map alone |
| RefreshStore.PutMarkerRefines | src/refresh_store.rs:77-86 | Writing a marker into the one bucket is a write to the revoked set alone |
| RefreshStore.MarkersNeverConflict | src/refresh_store.rs:70-74 | Writing a marker never decides a row's compare-and-swap, although they share the revision counter |
| RefreshStore.RefreshTokenStore.Store | src/refresh_store.rs:43-46 | The bucket becomes that of the two maps with the row written, under every fate of the write, and the answer is the acknowledgement |
| RefreshStore.RefreshTokenStore.FindById | src/refresh_store.rs:48-57 | The answer is the row with its revision, its absence, or the error, and the bucket stays |
| RefreshStore.RefreshTokenStore.MarkUsed | src/refresh_store.rs:59-75 | The row is marked used with its replacement exactly when the revision matches; a mismatch is a conflict and any other failure a KV error |
| RefreshStore.RefreshTokenStore.RevokeFamily | src/refresh_store.rs:77-86 | The marker is written under every fate of the write, and no row changes |
| RefreshStore.RefreshTokenStore.IsFamilyRevoked | src/refresh_store.rs:88-96 | True exactly when the read succeeds and the marker is there |
| RefreshStore.RefreshTokenStore.Rotate | src/rotation.rs:15-40 | Reuse revokes and writes nothing else; otherwise store, then mark, then revoke on a conflict, stopping at the first store error |
| SequentialRun.RotateIsARun | src/rotation.rs:15-40 | Whatever the fates of its operations and however old its row, a rotate run alone is a run of the protocol with the same bucket and answer |
| AttemptRun.AttemptIsARun | src/refresh.rs:76-129 | A whole refresh attempt run alone, on either path, is a run of the protocol with the same bucket and the same outcome |
| AttemptRun.LoginIsARun | src/token.rs:65-102 | A login run alone is the run of the protocol that opens a family, and the email it opens with is the verified one |
| AttemptRun.LogoutIsARun | src/logout.rs:11-19 | A logout run alone is a run of the protocol with the same bucket |
| AttemptRun.LogoutRevokes | src/logout.rs:11-19 | A logout whose store operations succeed leaves the family of its token revoked |
| HttpAnswers.SuccessIsEarned | src/refresh.rs:76-151 | For every store, text and fate: cookies are handed out only for a signed, unexpired refresh token whose row was stored unused in a family not found revoked; that row is then marked and the new id is stored unused in its family with the token's email |
| HttpAnswers.StrangerGetsNothing | src/refresh.rs:76-85 | Any other text (never signed, an access token, expired, an id that is no UUID) changes nothing, gets 401 on the explicit and 200 on the silent path, and both take the two tokens out of any jar |
| HttpAnswers.AnswersByCause | src/refresh.rs:87-129 | For a live token, cause by cause: 500 without cookies when a lookup, signing or write it needs fails, 401 with the clearing pair for an unknown, revoked or used token, else 200 with the new pair; what each leaves in the store |
| HttpAnswers.SilentAnswers | src/auth_check.rs:56-157 | The silent answer is always 200, with the new pair exactly when the explicit one has it and the clearing pair otherwise |
| HttpAnswers.BodyWins | src/refresh.rs:154-165 | A non-empty token in the body counts whatever the jar sends; without one the jar's refresh token does |
| Handlers.HandleRefresh | src/refresh.rs:63-152 | The store ends as the attempt leaves it; cookies are set exactly on success, store and signing errors are internal, everything else unauthorized |
| Handlers.RefreshHandler | src/refresh.rs:23-61 | The response to each outcome: 200 with the new pair, 500 with no cookies, or 401 clearing both |
| Handlers.SilentRefresh | src/auth_check.rs:56-157 | The store ends exactly as on the explicit path and the pair is set in exactly the same case; every failed attempt answers 200 and clears both cookies, and a missing refresh cookie clears the access cookie |
| Handlers.HandleJwtCookie | src/auth_check.rs:33-54 | 200 for a signed token not more than 5 seconds expired; else, with the switch off, 401 and no store change; with it on, a silent refresh exactly for an expired signed token, and for an unsigned one 200 with both tokens taken out of any jar |
| Handlers.AuthCheckHandler | src/auth_check.rs:15-31 | That for a request with an access cookie, which names no actor; without one, a readable Authorization header gets 502 when the lookup is down, 200 exactly with the resolved entry as actor, 401 otherwise; with neither, 200. The store changes only on the silent path |
| Handlers.HandleBearer | src/auth_check.rs:159-180 | 502 exactly when the lookup is down, 200 exactly when an entry was resolved for the token, 401 otherwise |
| Handlers.AcceptedWasSealed | src/auth_check.rs:166-179 | With arbitrary foreign writes in the bucket a 200 names an entry that was sealed for that very token under the service key, and nothing is accepted while the lookup is down |
| Handlers.SchemeIsOptional | src/auth_check.rs:160-164 | The scheme is taken off in any case of letters, and a value without it is the token |
| Handlers.PublishedIsAccepted | src/auth_check.rs:159-180 | After any sequence of successful puts and deletes a bearer is accepted, under any spelling of the scheme, exactly when its token was put and not deleted since, and the last entry put is named |
| Handlers.SuccessReachesTheClient | src/auth_check.rs:143-156 | After a success both paths answer alike, and the browser then presents exactly the two new tokens for their lifetimes, provided that all it sends is visible text |
| Handlers.OnlyTheExplicitPathKeepsTheToken | README.md:83 | After a failure the silent path takes both tokens out of the jar; the explicit path leaves the jar alone exactly on store and signing errors |
| Handlers.SilentPathNeedsALateDelivery | README.md:63 | A browser's request takes the silent path if and only if all it sends is visible text and it falls after signing + lifetime + 5 and before arrival + lifetime, so never when the cookies arrived within 6 seconds |
| Chain.ChainHolds | src/refresh.rs:63-152 | A client that comes back within the lifetime with the cookies of the last response succeeds at every turn, for any number of turns, through jar, extractor, verifier and store |
| Chain.TurnSucceeds | src/refresh.rs:63-152 | The cookies of one response carry the next request to a success, whose cookies do the same |
| Chain.LoginStartsAChain | src/token.rs:75-124 | The cookies of a login are the first of such a chain |
| Sessions.LoginEmail | src/token.rs:48-73 | An email is accepted exactly for grant type id_token with a non-empty id token that verifies to a non-empty email, and it is the verified one; a failed verification is unauthorized, everything else invalid |
| Sessions.HandleToken | src/token.rs:47-125 | A login succeeds only then; it stores under the new id one unused row with exactly the verified email and the given family, changes no other row and no marker, and sets the two cookies |
| Sessions.TokenHandler | src/token.rs:21-45 | 401 exactly when verification fails, 400 exactly for a malformed request or an empty email, 500 for what fails inside; no cookies with any of them and no store change before the write |
| Sessions.LogoutHandler | src/logout.rs:11-36 | Always 200 with both cookies cleared; the family of the presented row is revoked when verification and lookup succeed and the marker write is applied, which the response does not tell |
| Sessions.LogoutActsExactly | src/logout.rs:12-19 | For a live token: the marker of its row's family is written, with the current time, exactly when the lookup finds the row and the write is applied; nothing else changes |
| Sessions.StrangerLogsNobodyOut | src/logout.rs:12-14 | Any other text leaves the store as it was |
| Jwt.SignThenVerify | src/jwt.rs:81-112 | A refresh token gives back its email and id until lifetime + 5 seconds, and is expired afterwards |
| Jwt.AccessVerifies | src/jwt.rs:52-79 | An access token gives back its email until lifetime + 5 seconds, is expired afterwards, and never passes as a refresh token |
| Jwt.RefreshVerifiesAsAccess | src/jwt.rs:64-79 | The access verifier accepts a refresh token exactly until refresh lifetime + 5 seconds |
| Jwt.OnlySignedPasses | src/jwt.rs:64-112 | A text that was never signed passes neither verifier, and signing another text changes nothing about it |
| UuidText.UuidRoundTrip | src/refresh.rs:84-85 | Parsing the text of a 128-bit id gives the id back |
| UuidText.HyphenatedShape | src/jwt.rs:86 | The text of an id is 36 characters, lower-case hexadecimal with hyphens at the standard places |
| Cookie.ParseOfBuilt | src/cookie.rs:89-95 | A browser reads from a built Set-Cookie exactly its name, value and Max-Age, with and without Secure |
| Cookie.BuiltAttributes | src/cookie.rs:89-95 | By the parsing rules of a browser, every cookie set is HttpOnly, SameSite=Strict, Path=/ and of the given Max-Age, Secure exactly in a secure deployment, and nothing else |
| Cookie.HostPrefixIsAllowed | src/cookie.rs:20-34 | The names carry the `__Host-` prefix exactly where the attributes meet a browser's rules for it |
| Cookie.AnyJarIsTidy | src/cookie.rs:89-104 | Whatever headers a server sends, the jar holds only names and values that split cleanly |
| Cookie.ExtractReadsTheJar | src/cookie.rs:97-104 | From the header a browser sends, in any order, the extractor returns exactly what the jar holds under the name, or none; and none whenever any cookie sent is not visible text |
| Cookie.VisiblePairs | src/cookie.rs:98 | A Cookie header is visible text if and only if every name and value in it is |
| Cookie.FirstOneCounts | src/cookie.rs:97-104 | Of several Cookie headers the first counts, and of several cookies of one name the first |
| Cookie.CookieRoundTrip | src/cookie.rs:41-73 | Both tokens come back exactly for as long as their Max-Age runs and not after, whatever other cookies there are, if and only if all that is sent is visible text; otherwise neither does |
| Cookie.OneForeignCookieSilences | src/cookie.rs:98 | With one cookie of somebody else that has an accent in its value neither token comes back |
| Cookie.ClearForgets | src/cookie.rs:50-69 | The clearing cookies take exactly the two tokens out of a jar |
| Cookie.ClearRoundTrip | src/cookie.rs:50-69 | After the clearing cookies both extractors return none and no other cookie is touched |
| Jwks.FindKey | src/oidc_validator.rs:210-214 | The first key of the set with that id, or none exactly when the set has no such key |
| Jwks.OidcProvider.constructor | src/config.rs:87-88 | The cooldown is the configured value, with a floor of one second |
| Jwks.OidcProvider.RefreshJwks | src/oidc_validator.rs:180-207 | Inside the cooldown nothing happens; a failed fetch changes nothing; a successful one replaces keys and stamp |
| Jwks.OidcProvider.ResolveKey | src/oidc_validator.rs:147-166 | A cached key changes nothing; otherwise the cache is refetched exactly when the cooldown is over and the fetch succeeds, and the answer is what it then holds |
| Jwks.AloneIsARun | src/oidc_validator.rs:180-207 | The sequential refresh is a run of the concurrent cache with the same effect, with exactly one fetch, failed or done, once the cooldown is over |
| Jwks.ApartByCooldown | src/oidc_validator.rs:180-202 | Two successful refetches that do not overlap are at least a cooldown apart |
| Jwks.FetchBound | src/oidc_validator.rs:147-207 | With at most k requests in flight, a window of length W sees at most k times ceil(W / cooldown) fetches start that do not fail, hung ones included |
| Jwks.ConfiguredFetchBound | src/config.rs:87-88 | With k requests in flight, a window as long as the configured cooldown, or of one second, sees at most k fetches start that do not fail |
| Jwks.FailuresAddUp | src/oidc_validator.rs:180-207 | All fetches that start in a window are within that bound plus the number of failed ones |
| Jwks.StartsAreBoundedExactly | README.md:80 | In runs with at most n failed fetches the bound holds for all fetches if and only if n is zero |
| Jwks.FailuresAreNotLimited | README.md:80 | While fetches fail, any number of them can start in one moment, even one after the other |
| Bearer.BearerPublisher.Put | crates/br-auth-identity-util/src/publisher.rs:19-31 | After a successful put the token resolves to the entry |
| Bearer.BearerPublisher.Delete | crates/br-auth-identity-util/src/publisher.rs:33-39 | After a successful delete the token resolves to nothing |
| Bearer.KeysApart | crates/br-auth-contract/src/destination.rs:1-8 | Distinct tokens have distinct keys, all under the bearer prefix |
| Bearer.IndexAgreesWithMap | src/bearer_validator.rs:31-39 | After any sequence of successful puts and deletes, resolving agrees with a plain map from token to entry |
| Bearer.ResolvedWasSealed | crates/br-auth-contract/src/seal.rs:49-80 | With arbitrary foreign writes, copies and deletions, a token resolves only to an entry sealed for that token under the service key earlier in the run |
| Bearer.OldCopyResolves | crates/br-auth-contract/src/seal.rs:49-80 | No more can be said: a copy of an old sealed value, put back after a delete, resolves to the old entry |

## Left out

- Expiry inside the sequential class: `RefreshTokenStore` never drops an entry; rows and markers expire only in `Protocol`.
- Stale reads of revocation markers: a read of a marker that answers is current, and only rows may be read stale.
- Key validation in `KvKey::new`: the keys built here are always valid, so the `Key` error of the store does not occur.
- The error texts of `StoreError`, `RotationError` and `AppError`: only the variants and the status codes are kept.
- Time passing inside a handler: `HandleRefresh` and its like run at one clock reading; `Protocol` lets time pass between any two operations.
- UuidText.UuidRoundTrip: covers the hyphenated lower-case form that the service prints, not the other spellings that `Uuid::parse_str` accepts.
- The session cookie, which is outside the rotation state and read by an external parser.
- Malformed base64 or JSON in the bearer index: a value that does not open counts as absent, as in `resolve`, whatever the reason.
- OIDC discovery, `verify_id_token` and `resolve_single_key`: a login is given the verified email, or that verification failed.
- Cryptography, base64, JSON and the JWT codec, which are library code.
- Routing, request bodies, logging, readiness, configuration parsing beyond the cooldown floor, the NATS transport and the conformance battery.
