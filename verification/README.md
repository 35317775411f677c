# Authentication, coordination and money: a verified model

This project models the parts of the marketplace where the ordering of events or the exactness of
a computation carries the promise, and proves that promise for every run or every input. It models
nine things:

- **Session families in Redis** (`Session*.dfy`). Issue, rotate, logout and revoke-all over twelve
  key families with expiry times, and what the middleware accepts. Requests read and sign first and
  reach Redis later, so preparing and running a script are separate steps of a state machine.
  `SessionStore` says what each script makes of the keys, `SessionRedis` runs the scripts command by
  command on mutable keys (the updates that make one Redis command are one assignment), and the
  theorem files speak about whole runs; `SessionAnswers` and `SessionHousekeeping` say exactly what
  each script answers, what it changes for every credential, and how long a credential lasts.
- **The cross-tab refresh lease** (`RefreshLease`, `LeaseSafety`, `LeaseBakery`, `LeaseProgress`). A bakery over one
  storage register per tab. Each register read or write is a step, leases expire, tabs may sleep,
  vanish or leave uncertainty fences. Safety holds in every run, and `LeaseProgress` shows who gets
  through and by which steps.
- **The in-page lock** (`PageLock`). A chain of promises with waiters that time out.
- **Password-reset links** (`PasswordReset*.dfy`). A generation in the users table, records and
  active pointers in Redis, three-phase issuers and two-phase consumers, all interleaving.
- **The realtime client** (`Realtime*.dfy`). `RealtimeMachine` specifies every entry point and
  callback, `RealtimeTheorems` speaks of any sequence of calls and callbacks, and `RealtimeEffects`
  says what one call gives its caller in whatever state such a sequence has reached. `RealtimeObject`
  is the object with its fields; its `Valid()` says that it is in a reachable state, every public
  method and callback keeps it, and so all theorems hold of an object driven through its methods.
- **One-time codes** (`Base32`, `Base32Codec`, `Totp`). The Base32 loops over a wrapping 32-bit
  accumulator against section 6 of RFC 4648, the truncation of section 5.3 of RFC 4226, and the
  search for a counter.
- **Two-factor transactions** (`TwoFactor*.dfy`). Replay counters, backup codes and the session version
  over any serial run of login, setup, confirmation, regeneration, disabling and migration;
  `TwoFactorAnswers` says what each transaction asks for and gives, and `TwoFactorCodes` joins them
  with the one-time codes and the clock.
- **Keyset pagination** (`Pagination`, `PaginationChanges`). Cursors, look-ahead pages and the client
  that drains them, from a fixed table and from one that changes between the requests.
- **Exact money** (`Money`, `MoneyText`, `RateText`, on `Decimal`). Rounding, conversion, and the
  texts of amounts and rates.

`Wrappers` holds the one `Option` that all modules share.

Protocols whose steps interleave are datatypes with a `Next` function and runs of any length; the
code that updates objects or keys in place is given as classes and methods proved equal to the same
functions. Nothing in a run is bounded: any number of users, tabs, tokens and steps.

Assumptions that the statements carry: random hashes, session ids and secrets never repeat; the
application's clock reading is not ahead of the clock at which its script runs; a script, a `MULTI`
or a locked transaction is one step; the clock stands still while a tab reads all registers in one
synchronous scan; the database prints a timestamp so that it reads back as the same timestamp.
Nothing assumes that access tokens live shorter than refresh tokens.

Where documentation and code differ, the code is modelled. `centsToDecimalString` is documented as
the inverse of `moneyToCents`; it prints a sign for negative amounts and `moneyToCents` refuses it.
`MoneyText.DecimalStringRoundTrip` gives the exact condition and `MoneyText.NegativeExample` an
input.

## Model

| member | source | states |
|---|---|---|
| `SessionTheorems.StepInv` | backend/src/modules/auth/session.service.ts:143-391 | every step of the service keeps all indexes in agreement with the keys they index, in both directions: what is live is indexed, and an index of a family or an account names nothing of another |
| `SessionTheorems.ReachableInv` | backend/src/modules/auth/session.service.ts:143-391 | that agreement holds in every reachable state |
| `SessionTheorems.AcceptedTokensIndexed` | backend/src/modules/auth/session.service.ts:183-196 | every access token the middleware would accept is in its family's index, scored no earlier than it expires, and in its account's index |
| `SessionTheorems.LiveRecordsIndexed` | backend/src/modules/auth/session.service.ts:511-542 | every live refresh record is in both token indexes, and its family is active and in the account's family index |
| `SessionTheorems.FamilyIndexBounded` | backend/src/modules/auth/session.service.ts:166-183 | no family index ever exceeds 512 entries or names a token of another family |
| `SessionTheorems.FencedForever` | backend/src/modules/auth/session.service.ts:143-348 | once a family is dead, no continuation of any run lets a rotation of it commit or change a key, lets one of its access tokens pass the revocation check, or has a live refresh record of it |
| `SessionTheorems.LogoutFencesAccess` | backend/src/modules/auth/session.service.ts:302-304 | a logout with an unexpired access token kills its family |
| `SessionTheorems.LogoutFencesRefresh` | backend/src/modules/auth/session.service.ts:306-333 | a logout with a refresh token that is live, or was rotated away within the alias TTL, kills the family of that token |
| `SessionTheorems.FenceSparesOthers` | backend/src/modules/auth/session.service.ts:256-300 | fencing a family leaves every record, session and family of other families as it was |
| `SessionTheorems.RevokeAllSparesOthers` | backend/src/modules/auth/session.service.ts:350-391 | in every reachable state a revoke-all of one account leaves every other account the same accepted tokens, live refresh records and live families |
| `SessionRotationTheorems.LoggedOutForGood` | backend/src/modules/auth/session.service.ts:216-348 | after a logout that presents an unexpired access token of a family, or a refresh token of it that is live or was rotated away within the alias TTL, no later rotation of the family succeeds and none of its tokens is accepted, for ever |
| `SessionRotationTheorems.OneSuccessor` | backend/src/modules/auth/session.service.ts:143-214 | with rotation on, two rotations of one refresh token that report success at any two points of a run are the same rotation |
| `SessionRotationTheorems.OneLiveToken` | backend/src/modules/auth/session.service.ts:205-209 | with rotation on, a family has at most one live refresh record in every reachable state |
| `SessionRotationTheorems.LogoutWithAncestor` | backend/src/modules/auth/session.service.ts:188-188 | rotate first, log out with the rotated-away token within the alias TTL: the whole family dies |
| `SessionRotationTheorems.RotateAfterLogout` | backend/src/modules/auth/session.service.ts:306-333 | log out first: a rotation in flight or retried is refused at every later point |
| `SessionRotationTheorems.RevokeAllLeavesNothing` | backend/src/modules/auth/session.service.ts:350-391 | a revoke-all leaves the account no live refresh record and no accepted token but the spared one; a full one leaves every family dead |
| `SessionRotationTheorems.BumpKillsOldFamilies` | backend/src/common/middleware/auth.ts:79-92 | a token accepted at any time after a session-version bump is of a family begun after it: no token, refresh record, login or rotation in flight from before the bump belongs to it |
| `SessionRotationTheorems.IssueTakesHold` | backend/src/modules/auth/session.service.ts:511-542 | in every reachable state a login gives a live refresh record, and an access token accepted if and only if it is unexpired and its version is current; every other token and record is as it was |
| `SessionRotationTheorems.RotationTakesHold` | backend/src/modules/auth/session.service.ts:180-213 | a committing rotation gives the successor record, and a token accepted if and only if it is unexpired, current and not logged out already; with rotation on the presented token is spent; all others are as they were |
| `SessionRetryTheorems.RetryAfterLostReply` | backend/src/modules/auth/session.service.ts:616-630 | exactly when a lost reply can be made up for: over any run after a commit, repeating the rotation changes nothing, and reports success if and only if no step rotated the successor on, logged out the new session or its family, or revoked its own account, and the first of the keys looked at has not expired; otherwise it is refused |
| `SessionRetryTheorems.RetryAfterFence` | backend/src/modules/auth/session.service.ts:144-156 | a repeat is refused wherever the family is dead, and a dead family means that the run was disturbed or too long |
| `SessionAnswers.RotationAnswer` | backend/src/modules/auth/session.service.ts:144-183 | in every reachable state a live refresh token is rotated if and only if fewer than 512 other sessions of its family are still running, and else answered with too many; a rotation that does not commit changes nothing for any credential |
| `SessionAnswers.LogoutExactly` | backend/src/modules/auth/session.service.ts:216-348 | the whole effect of a logout: exactly the access tokens and refresh records of the families it names are good no more, and every other is as good as before |
| `SessionAnswers.RevokeAllExactly` | backend/src/modules/auth/session.service.ts:350-391 | the whole effect of a revoke-all: of the account exactly the spared session stays accepted and no refresh record stays live; nothing changes for anybody else |
| `SessionAnswers.LoginLasts` | backend/src/modules/auth/session.service.ts:511-542 | over any run after a login the access token is accepted until it expires under the version it was signed with, and the refresh token is live for its TTL, unless a step logs them out, revokes them or rotates the token away |
| `SessionAnswers.RotationLasts` | backend/src/modules/auth/session.service.ts:185-213 | the same for what a committed rotation hands out |
| `SessionAnswers.LogoutMarks` | backend/src/modules/auth/session.service.ts:256-292 | a logout marks its own session, and every session of a named family that was accepted until then, as revoked for as long as a refresh token can live |
| `SessionAnswers.LogoutReceipts` | backend/src/modules/auth/session.service.ts:276-292 | every live refresh token of a named family gets a receipt that leads back to its family and account for eight days |
| `SessionHousekeeping.LoginNames` | backend/src/modules/auth/session.service.ts:511-542 | a login names its token for five minutes, and touches no other name |
| `SessionHousekeeping.RotationNames` | backend/src/modules/auth/session.service.ts:188-188 | exactly a rotation that commits names the token it was given, for five minutes |
| `SessionHousekeeping.RotationPrunes` | backend/src/modules/auth/session.service.ts:165-169 | whether it commits or not, a rotation of a live token takes exactly the sessions that have run out off the family index, and off the account index |
| `SessionHousekeeping.ForeignFamilyRefused` | backend/src/modules/auth/session.service.ts:157-163 | for any keys: a live record whose family is fenced or of another account is not rotated and nothing changes |
| `SessionHousekeeping.LogoutUnlists` | backend/src/modules/auth/session.service.ts:256-300 | a logout takes every active family it names, its running sessions and its tokens off all indexes of the account |
| `SessionHousekeeping.PresentedUnlisted` | backend/src/modules/auth/session.service.ts:331-343 | the presented session and refresh token themselves leave their account's indexes |
| `SessionHousekeeping.RevokeAllUnlists` | backend/src/modules/auth/session.service.ts:350-391 | a revoke-all empties the account's indexes but for the spared session, and no other account's |
| `SessionRedis.Redis.RunRotate` | backend/src/modules/auth/session.service.ts:143-214 | the rotation script with its pruning loop leaves exactly the specified keys and returns the specified code: for a live record of an active family, success if and only if fewer than 512 other sessions are running |
| `SessionRedis.Redis.RunLogout` | backend/src/modules/auth/session.service.ts:216-348 | the logout script with its loops over sessions and tokens leaves exactly the specified keys |
| `SessionRedis.Redis.RunRevokeAll` | backend/src/modules/auth/session.service.ts:350-391 | the revoke-all script with its three loops leaves exactly the specified keys |
| `LeaseSafety.AtMostOneLiveLease` | frontend/lib/api.ts:1019-1072 | in every run, with sleeping and vanishing tabs, renewals and fences, two tabs never both have an acquired lease that is unexpired in storage |
| `LeaseBakery.AtMostOneHolder` | frontend/lib/api.ts:950-1072 | while no claim expires before its release, at most one tab publishes the holding flag, under any interleaving of register reads and writes |
| `LeaseBakery.NeverDemoted` | frontend/lib/api.ts:1051-1068 | in such runs the branch that steps back for a competing holder is never taken |
| `LeaseBakery.NotOvertaken` | frontend/lib/api.ts:989-1023 | in every run from the start, whatever other claims have lapsed: while the claim of a tab that has its number when another starts choosing stays unexpired, the other neither publishes the holding flag nor acquires, however often it tries again |
| `LeaseBakery.PrecedesTotal` | frontend/lib/api.ts:944-948 | claims of different tabs are ordered exactly one way |
| `LeaseBakery.PrecedesTransitive` | frontend/lib/api.ts:944-948 | the order of claims is transitive |
| `LeaseBakery.ExactlyTheFirstIsFree` | frontend/lib/api.ts:1019-1024 | among numbered claims that do not hold, a claim is unblocked if and only if it is the first; that the first does get through is `LeaseProgress.FirstAcquires` |
| `LeaseBakery.SomeClaimIsFirst` | frontend/lib/api.ts:944-948 | among any claims there is a first, and only one |
| `LeaseProgress.FirstAcquires` | frontend/lib/api.ts:1005-1072 | at any point of any run a waiting tab whose claim is ahead of all unexpired ones acquires by its own reads and writes alone, whatever expired claims lie in storage |
| `LeaseProgress.AcquiresIffClear` | frontend/lib/api.ts:1005-1072 | a tab about to scan acquires by its own steps if and only if no unexpired claim is holding, choosing or ahead of its own |
| `LeaseProgress.LoneTabAcquires` | frontend/lib/api.ts:950-1072 | where every claim has expired or is gone, an idle tab chooses a number and acquires |
| `LeaseProgress.QueueMoves` | frontend/lib/api.ts:1005-1072 | a queue of waiting tabs is never stuck: the first of them acquires by its own steps |
| `LeaseProgress.FourWholeScans` | frontend/lib/api.ts:1005-1072 | no tab raises its flag without two whole scans or acquires without two more |
| `LeaseProgress.FlagMeansConfirming` | frontend/lib/api.ts:1051-1068 | in every run the flag of a tab at work means that it is confirming or has the lease: one that steps back lowers it |
| `LeaseProgress.WrittenClaimHolds` | frontend/lib/api.ts:970-1003 | a claim begun, numbered or renewed is good for thirty seconds, whatever the others do |
| `LeaseProgress.CrashedClaimLapses` | frontend/lib/api.ts:989-992 | the claim of a tab that takes no step is in nobody's way after thirty seconds |
| `LeaseProgress.FenceHolds` | frontend/lib/api.ts:961-969 | a request given up in doubt keeps its claim until it expires: nothing removes or overwrites it, its own tab included |
| `LeaseProgress.FenceEnds` | frontend/lib/api.ts:1114-1128 | once such a claim has expired its timer may fire, and then the claim is gone |
| `LeaseProgress.ReleaseFrees` | frontend/lib/api.ts:1096-1112 | a tab that releases or gives up takes exactly its own claim out of storage; the claim of one that vanishes stays |
| `PageLock.OneAtATime` | frontend/lib/api.ts:1192-1218 | after any calls, timeouts and aborts at most one operation is running |
| `PageLock.FirstInFirstOut` | frontend/lib/api.ts:1196-1201 | operations begin in the order of the calls, each at most once |
| `PageLock.TailMeansQuiet` | frontend/lib/api.ts:1209-1217 | once a tail is open every call up to it has finished or will never run, now and later |
| `PageLock.NeverWedged` | frontend/lib/api.ts:1209-1217 | when nothing more can happen by itself every call is over and the next call starts at once |
| `PageLock.ComesToRest` | frontend/lib/api.ts:1192-1218 | without new calls the chain takes only a bounded number of steps |
| `PasswordResetTheorems.CommitIsOfTheNewestIssue` | backend/src/modules/auth/auth.routes.ts:437-464 | between the issue of a link and its commit nothing happened to that user: no newer issue, no other commit, no email or password change |
| `PasswordResetTheorems.CommitsRise` | backend/src/modules/auth/auth.routes.ts:443-461 | the commits of a user are for strictly rising generations |
| `PasswordResetTheorems.LinkCommitsOnce` | backend/src/modules/auth/auth.routes.ts:443-461 | no link commits twice in any interleaving |
| `PasswordResetTheorems.CountersAccountForHistory` | backend/src/modules/auth/auth.routes.ts:443-452 | over any run each counter of a row equals its first value plus the events that raise it: in particular every commit raises the session version by one |
| `PasswordResetTheorems.PointerDecides` | backend/src/modules/auth/verification.service.ts:70-143 | a record is live if and only if its user's live pointer names it, with the same generation |
| `PasswordResetTheorems.OlderIssuerYields` | backend/src/modules/auth/verification.service.ts:73-83 | an issuer that is not newer than a live link of its user changes nothing and gets no link |
| `PasswordResetTheorems.NewerIssuerReplaces` | backend/src/modules/auth/verification.service.ts:84-90 | a newer issuer's link becomes the active one; of the others exactly its own user's link goes |
| `PasswordResetTheorems.WithdrawSparesOthers` | backend/src/modules/auth/verification.service.ts:137-143 | a cancelled issue leaves every other live link usable and its pointer in place |
| `PasswordResetTheorems.NewestLinkWorks` | backend/src/modules/auth/verification.service.ts:359-446 | a link stored by the newest issuer stays good until it expires, whatever older issuers, cancels and consumers of the same user do: consume and commit succeed |
| `PasswordResetTheorems.DeliveredIffNewest` | backend/src/modules/auth/verification.service.ts:407-437 | a stored link is delivered if and only if nothing has happened to its user since its issue; any other is withdrawn and can then be redeemed at no time |
| `PasswordResetTheorems.StoreAnswers` | backend/src/modules/auth/verification.service.ts:388-405 | an issuer gets its link if and only if the hash is free and no link of its user at least as new is live; a hash in use is drawn once more, and only once |
| `PasswordResetTheorems.IssueIsForTheAddress` | backend/src/modules/auth/verification.service.ts:359-375 | an issue asked for at an address draws a new generation for that address or does not take place |
| `PasswordResetTheorems.LinkLapses` | backend/src/modules/auth/verification.service.ts:378-386 | an hour after any point of a run no link that existed then can be redeemed |
| `PasswordResetProofs.ReachableInv` | backend/src/modules/auth/verification.service.ts:70-143 | the agreement of rows, claims, links, issuers, consumers and history in every reachable state |
| `PasswordResetRedis.Redis.RunIssue` | backend/src/modules/auth/verification.service.ts:70-91 | the three return codes of the issue script; with 1 the link is redeemable until it expires, otherwise nothing changed; records and pointers still agree |
| `PasswordResetRedis.StoreDisplaces` | backend/src/modules/auth/verification.service.ts:73-90 | a stored link is redeemable until it expires, every earlier link of its user stops being so, and links of other users are as redeemable as before |
| `PasswordResetRedis.IssueAnswers` | backend/src/modules/auth/verification.service.ts:70-91 | the answer of the issue script for any keys, a pointer without a rank included |
| `PasswordResetRedis.ConsumeAnswers` | backend/src/modules/auth/verification.service.ts:93-135 | for any keys the consume script returns exactly the claim of a live, unexpired record that its user's live pointer names |
| `PasswordResetRedis.Redis.RunConsume` | backend/src/modules/auth/verification.service.ts:93-135 | returns the claim of exactly the live, active, unexpired link; a second request with it gets nothing, every other link is as redeemable as before, and records and pointers still agree |
| `PasswordResetRedis.Redis.RunCancel` | backend/src/modules/auth/verification.service.ts:137-143 | afterwards the cancelled link is redeemable at no clock reading and every other link exactly as before; records and pointers still agree |
| `RealtimeTheorems.NoLostWakeup` | frontend/lib/realtime-client.ts:104-156 | a client that is enabled, not rejected, visible and online has exactly one of socket, attempt in flight and armed reconnect timer; never more than one; none when stopped or rejected |
| `RealtimeTheorems.LifelinesFollow` | frontend/lib/realtime-client.ts:291-354 | when a lifeline of such a client ends another takes its place, or the client is rejected |
| `RealtimeTheorems.StaleAttemptHarmless` | frontend/lib/realtime-client.ts:225-247 | an attempt of an older generation installs nothing, frees no newer slot, and its socket is closed |
| `RealtimeTheorems.CurrentAttemptInstalls` | frontend/lib/realtime-client.ts:225-247 | the attempt in flight does install its socket and frees the slot |
| `RealtimeTheorems.SettlesOnce` | frontend/lib/realtime-client.ts:173-211 | a promise has no settlement while its message is pending and exactly one otherwise, after any run of acknowledgements, errors, timeouts, closes, refreshes and stops |
| `RealtimeTheorems.OutcomeIsFinal` | frontend/lib/realtime-client.ts:389-406 | a settled promise keeps its one outcome through any run |
| `RealtimeTheorems.NoSocketNobodyWaits` | frontend/lib/realtime-client.ts:291-300 | without a socket in use nothing is pending and every promise is settled |
| `RealtimeTheorems.AcknowledgementSettles` | frontend/lib/realtime-client.ts:269-279 | an acknowledgement settles exactly the promise that waits for it |
| `RealtimeTheorems.RoomsInStep` | frontend/lib/realtime-client.ts:250-257 | on an open socket the joins and leaves sent, in order, amount to exactly the referenced rooms |
| `RealtimeTheorems.StatusIsHonest` | frontend/lib/realtime-client.ts:343-354 | in every reachable state the status shown agrees with the connection: stopped if and only if disabled or rejected, connected only with a socket, connecting while an attempt is in flight, waiting while a timer is armed |
| `RealtimeTheorems.RevalidatesOnce` | frontend/lib/realtime-client.ts:414-427 | between two fresh sessions the terminal-failure callback runs at most once |
| `RealtimeTheorems.BackoffRises` | frontend/lib/realtime-client.ts:343-354 | the delay computed for the n-th attempt in a row: one second doubled up to thirty, never less for a later attempt |
| `RealtimeTheorems.DelaysRise` | frontend/lib/realtime-client.ts:343-354 | the timers armed in a run: of two reconnect timers the later waits at least as long, within one and thirty seconds, until a socket opens, the client restarts or its authentication is refreshed; runs with a delay dictated by a 429 are excepted |
| `RealtimeProofs.ReachableInv` | frontend/lib/realtime-client.ts:54-427 | the invariant of connection, messages and rooms after any sequence of calls and callbacks |
| `RealtimeEffects.StartConnects` | frontend/lib/realtime-client.ts:104-112 | in every reachable state: after `start` a client that is visible and online has an attempt of the newest generation in flight |
| `RealtimeEffects.StopEndsEverything` | frontend/lib/realtime-client.ts:114-132 | in every reachable state: after `stop` there is no socket, attempt or timer in use and no room, and every promise ever handed out has one outcome |
| `RealtimeEffects.RefreshReconnects` | frontend/lib/realtime-client.ts:134-146 | in every reachable state: a refresh rejects what was pending, keeps the rooms and starts an attempt of a newer generation where the client may connect |
| `RealtimeEffects.SignalWakes` | frontend/lib/realtime-client.ts:148-156 | in every reachable state: a visibility or network signal leaves an existing lifeline alone and starts a missing one exactly when it is wanted |
| `RealtimeEffects.JoinCounts` | frontend/lib/realtime-client.ts:158-171 | one reference more to the room and to no other; on an open socket the server has exactly the referenced rooms |
| `RealtimeEffects.LeaveCounts` | frontend/lib/realtime-client.ts:370-378 | one reference less, never below none, and to no other room; on an open socket the server has exactly the referenced rooms |
| `RealtimeEffects.LeaveUndoesJoin` | frontend/lib/realtime-client.ts:158-171 | releasing what was joined restores every count, whether or not either send throws |
| `RealtimeEffects.SendAnswers` | frontend/lib/realtime-client.ts:173-211 | the promise handed out is pending if and only if the message went out under a new id; otherwise it is settled at once with its reason, and no other message is touched |
| `RealtimeEffects.DeadlineRejects` | frontend/lib/realtime-client.ts:186-189 | a deadline that fires finds its promise unsettled, rejects it alone and forgets its message alone |
| `RealtimeEffects.TimerReconnects` | frontend/lib/realtime-client.ts:350-353 | a reconnect timer that fires starts the next attempt if and only if the client may connect, and leaves no other lifeline |
| `RealtimeEffects.FailureFollowsUp` | frontend/lib/realtime-client.ts:316-354 | when the attempt in flight fails the client is rejected, or exactly one timer is armed, for the server's delay or the next backoff |
| `RealtimeEffects.CloseFollowsUp` | frontend/lib/realtime-client.ts:291-314 | when the socket in use closes every waiting promise is rejected, and the client is rejected with 1008, 4001 and 4003 or exactly one retry is armed; closing any other socket changes neither |
| `RealtimeEffects.RevalidatesExactly` | frontend/lib/realtime-client.ts:291-341 | in every reachable state a step runs the terminal-failure callback if and only if it closes the socket in use with 1008, 4001 or 4003, or fails the attempt in flight unretryably with 401 or 403, and the session has not asked yet |
| `RealtimeEffects.RevalidationsCounted` | frontend/lib/realtime-client.ts:414-427 | over any run the callback runs exactly once for each session in which the server turns the client away |
| `RealtimeEffects.AttemptsCounted` | frontend/lib/realtime-client.ts:343-354 | the attempts in a row are exactly the connections and attempts lost since the client last started, stopped, refreshed or opened a socket |
| `RealtimeEffects.FirstAndLastAreSent` | frontend/lib/realtime-client.ts:158-171 | on an open socket exactly the first reference to a room and the release of the last are sent |
| `RealtimeEffects.RepeatsAreNothing` | frontend/lib/realtime-client.ts:104-146 | stopping or refreshing a client that is off, and starting one that is on, changes nothing |
| `RealtimeObject.RealtimeClient.constructor` | frontend/lib/realtime-client.ts:65-86 | a new object is valid and in the initial state |
| `RealtimeObject.RealtimeClient.Start` | frontend/lib/realtime-client.ts:104-112 | keeps validity; afterwards enabled, with one lifeline if it is wanted and an attempt in flight if it was off and may connect |
| `RealtimeObject.RealtimeClient.Stop` | frontend/lib/realtime-client.ts:114-132 | keeps validity; afterwards no lifeline, timer or room, and every promise is settled, the waiting ones with "session_ended" |
| `RealtimeObject.RealtimeClient.RefreshAuthentication` | frontend/lib/realtime-client.ts:134-146 | keeps validity and the rooms; every waiting promise is settled and a new attempt is in flight where the client may connect; nothing changes when it is off |
| `RealtimeObject.RealtimeClient.SetVisible` | frontend/lib/realtime-client.ts:148-151 | keeps validity; an existing lifeline is untouched, a missing one is started exactly when it is now wanted |
| `RealtimeObject.RealtimeClient.SetOnline` | frontend/lib/realtime-client.ts:153-156 | keeps validity; an existing lifeline is untouched, a missing one is started exactly when it is now wanted |
| `RealtimeObject.RealtimeClient.JoinConversation` | frontend/lib/realtime-client.ts:158-164 | keeps validity; one reference more to this room only, and an open socket has joined exactly the referenced rooms |
| `RealtimeObject.RealtimeClient.LeaveConversation` | frontend/lib/realtime-client.ts:370-378 | keeps validity; one reference less to this room only, and an open socket has joined exactly the referenced rooms |
| `RealtimeObject.RealtimeClient.SendMessage` | frontend/lib/realtime-client.ts:173-211 | keeps validity; returns a new promise, pending if and only if the message went out, and touches no other message |
| `RealtimeObject.RealtimeClient.HandleAnswer` | frontend/lib/realtime-client.ts:269-279 | keeps validity; an acknowledgement or error settles the one promise that waits under that id, and nothing if none does |
| `RealtimeObject.RealtimeClient.AckDeadline` | frontend/lib/realtime-client.ts:186-189 | keeps validity; the promise was unsettled, and it alone is now rejected |
| `RealtimeObject.RealtimeClient.ReconnectDue` | frontend/lib/realtime-client.ts:350-353 | keeps validity; an attempt is in flight if and only if the client may connect, and no timer is left |
| `RealtimeObject.RealtimeClient.ConnectFailed` | frontend/lib/realtime-client.ts:243-247 | keeps validity; a stale failure only leaves the books, the current one rejects the client or arms exactly one timer for the right delay; revalidation is asked for exactly on an unretryable 401 or 403, once a session |
| `RealtimeObject.RealtimeClient.ConnectSucceeded` | frontend/lib/realtime-client.ts:226-247 | keeps validity; the attempt of the current generation installs its socket and frees the slot, a stale one touches neither |
| `RealtimeObject.RealtimeClient.SocketOpened` | frontend/lib/realtime-client.ts:250-257 | keeps validity, with its loop over rooms and a join that throws: an open socket in use has joined exactly the referenced rooms |
| `RealtimeObject.RealtimeClient.SocketClosed` | frontend/lib/realtime-client.ts:291-314 | keeps validity; the close of the socket in use settles every waiting promise and arms a retry, or with 1008, 4001 and 4003 rejects the client and asks for revalidation once a session; any other close changes nothing of the connection |
| `RealtimeObject.RealtimeClient.RejectPending` | frontend/lib/realtime-client.ts:402-406 | the loop settles every pending message once with the same outcome |
| `Base32Codec.Base32Encode` | backend/src/modules/auth/totp.service.ts:23-37 | the text's five-bit groups are the bytes' bits with fewer than five zeros to fill the last group, although the accumulator wraps |
| `Base32Codec.Base32DecodeStrict` | backend/src/modules/auth/totp.service.ts:39-81 | accepts exactly the encodings of non-empty byte strings, bare or exactly padded, of at most 4096 characters, and returns the byte string |
| `Base32Codec.EncodingUnique` | backend/src/modules/auth/totp.service.ts:23-37 | a byte string has one encoding |
| `Base32Codec.AcceptedOnce` | backend/src/modules/auth/totp.service.ts:39-81 | an accepted text stands for one byte string |
| `Base32Codec.RoundTrip` | backend/src/modules/auth/totp.service.ts:125-127 | decoding what was encoded gives the secret back, for every non-empty secret whose text fits |
| `Totp.Truncation` | backend/src/modules/auth/totp.service.ts:114-121 | the masked and shifted bytes are the low 31 bits of the big-endian word at the offset in the low four bits of the last byte, never negative |
| `Totp.CodesAreValues` | backend/src/modules/auth/totp.service.ts:106-123 | a code is six digits, and equals a submitted one if and only if the truncated values agree modulo a million |
| `Totp.CounterCountsSteps` | backend/src/modules/auth/totp.service.ts:95-104 | the counter is the number of whole thirty-second steps, for exactly the times whose counter is a safe integer |
| `Totp.MatchTotpCounter` | backend/src/modules/auth/totp.service.ts:162-192 | the answer for every code, secret and time: refused inputs, the preferred counter among the three steps, and the throw at the end of the safe integers |
| `Totp.AnswerIsNearby` | backend/src/modules/auth/totp.service.ts:179-191 | a code is matched if and only if it is the code of one of the three steps around now, and with a counter whose code it is |
| `TwoFactorProofs.NoReplay` | backend/src/modules/auth/twofa.service.ts:237-269 | under one secret accepted counters strictly increase over any run, the confirming code included |
| `TwoFactorProofs.BackupCodeOnce` | backend/src/modules/auth/twofa.service.ts:271-304 | a backup code is used at most once, and not after a newer batch |
| `TwoFactorProofs.AcceptedIffNewer` | backend/src/modules/auth/twofa.service.ts:249-263 | a counter is accepted if and only if it is above the replay counter; under a secret that the history shows in use, if and only if it is above every counter accepted before |
| `TwoFactorProofs.UnusedCodeAccepted` | backend/src/modules/auth/twofa.service.ts:271-304 | whatever stored hashes a submitted backup code agrees with, it is accepted if and only if one of them is unused; then the first unused one is marked and no other |
| `TwoFactorProofs.CodeGoodUntilUsed` | backend/src/modules/auth/twofa.service.ts:271-304 | in every reachable state a stored code of a batch issued in the run is accepted if and only if the history does not show its use |
| `TwoFactorProofs.BumpsExactlyOnChange` | backend/src/modules/auth/twofa.service.ts:480-551 | a transaction raises the session version by one if and only if it changes the factor: the switch, the secret in use or the batch of backup codes |
| `TwoFactorProofs.SameVersionSameFactor` | backend/src/modules/auth/twofa.service.ts:480-551 | over any run the session version rises by exactly the number of factor changes, so one version never spans two factors |
| `TwoFactorProofs.MigrationKeepsFactor` | backend/src/modules/auth/twofa.service.ts:127-180 | migration keeps the factor, the replay counter and every accepting verdict, leaves nothing in the clear, puts the secret where its confirmation says, and a second one does nothing |
| `TwoFactorProofs.NothingWithoutFactor` | backend/src/modules/auth/twofa.service.ts:237-247 | without a secret in use, whatever is attempted, the first acceptance in the history is that of a confirmation |
| `TwoFactorProofs.NothingAfterDisable` | backend/src/modules/auth/twofa.service.ts:534-557 | after disabling no code of any kind is accepted before a new setup has been confirmed |
| `TwoFactorAnswers.NothingUnproven` | backend/src/modules/auth/twofa.service.ts:314-337 | with the factor on, setup, regeneration and disabling change nothing at all unless the password is right or the code is one that a login would accept in that state |
| `TwoFactorAnswers.ProvenDisables` | backend/src/modules/auth/twofa.service.ts:534-557 | with either proof disabling leaves the factor off, without row and codes |
| `TwoFactorAnswers.ProvenSetsUp` | backend/src/modules/auth/twofa.service.ts:380-417 | with a proof, or where the factor is off, the new secret waits for its confirmation and the factor in use stays |
| `TwoFactorAnswers.ProvenRegenerates` | backend/src/modules/auth/twofa.service.ts:504-532 | with a proof ten new unused codes replace the old ones under the same secret |
| `TwoFactorAnswers.PasswordSpendsNothing` | backend/src/modules/auth/twofa.service.ts:324-330 | with the right password no code is spent, even if one is presented |
| `TwoFactorAnswers.NothingToChange` | backend/src/modules/auth/twofa.service.ts:504-545 | where the factor is off, regenerating and disabling change nothing |
| `TwoFactorAnswers.ConfirmsExactly` | backend/src/modules/auth/twofa.service.ts:426-488 | the waiting secret comes into use if and only if it is at most twenty minutes old and the code is right, with ten new codes and the code spent; otherwise the factor in use stays, and a secret that waited too long goes |
| `TwoFactorAnswers.ConfirmingCodeIsSpent` | backend/src/modules/auth/twofa.service.ts:457-478 | the code that confirmed a setup, and any older one, does not sign in |
| `TwoFactorAnswers.OtherTextsRefused` | backend/src/modules/auth/twofa.service.ts:244-247 | a text that is neither a matching code nor shaped like a backup code is refused and changes nothing |
| `TwoFactorAnswers.AcceptedIsSpent` | backend/src/modules/auth/twofa.service.ts:249-268 | an accepted counter is refused from then on and every later one accepted, nothing else of the account changes, and the secret is under the present key |
| `TwoFactorCodes.ReadCode` | backend/src/modules/auth/twofa.service.ts:247-249 | what the checks make of a submitted text at a time, from the search for its counter |
| `TwoFactorCodes.AcceptedIsForNow` | backend/src/modules/auth/twofa.service.ts:248-263 | an accepted one-time code is the code of its counter under the stored secret, and that counter is within one step of now |
| `TwoFactorCodes.SpentCodeRefused` | backend/src/modules/auth/twofa.service.ts:248-263 | once a code was accepted for a counter, at any later point of the run the same digits are refused under that secret, unless they are also the code of a later step around the time of the second attempt |
| `TwoFactorCodes.PresentCodeAccepted` | backend/src/modules/auth/twofa.service.ts:248-263 | the code of the present step is accepted if and only if nothing was accepted for this step or a later one |
| `TwoFactorProofs.ReachableInv` | backend/src/modules/auth/twofa.service.ts:237-557 | replay counter, secrets, codes and history agree in every reachable state |
| `TwoFactorService.TwoFactorAccount.ConsumeTwoFactorCode` | backend/src/modules/auth/twofa.service.ts:237-304 | the transaction, with its loop over backup codes, does what is specified and answers accordingly |
| `TwoFactorService.TwoFactorAccount.RequireReauthentication` | backend/src/modules/auth/twofa.service.ts:314-337 | the password is tried before a code is spent |
| `TwoFactorService.TwoFactorAccount.SetupTwoFactor` | backend/src/modules/auth/twofa.service.ts:380-417 | allowed if and only if the factor is off or a proof is shown; then the secret waits, otherwise nothing changed |
| `TwoFactorService.TwoFactorAccount.ConfirmTwoFactor` | backend/src/modules/auth/twofa.service.ts:420-492 | succeeds if and only if a secret of at most twenty minutes waits and the code matches; the factor is then on with ten codes, otherwise switch, codes and version are as before |
| `TwoFactorService.TwoFactorAccount.RegenerateBackupCodes` | backend/src/modules/auth/twofa.service.ts:504-532 | succeeds if and only if the factor is on, configured and a proof is shown; otherwise everything is rolled back |
| `TwoFactorService.TwoFactorAccount.DisableTwoFactor` | backend/src/modules/auth/twofa.service.ts:534-557 | succeeds if and only if the factor is on and the password or a code that a login would accept is shown; row and codes go together, or nothing changes |
| `TwoFactorService.TwoFactorAccount.MigrateLegacySecret` | backend/src/modules/auth/twofa.service.ts:127-180 | no secret stays in the clear, so a second call changes nothing; a confirmed one becomes active, another waits as from the day of its row; replay counter and everything else unchanged |
| `Pagination.CursorRoundTrip` | backend/src/common/pagination.ts:24-47 | a cursor decodes to the key it was made from |
| `Pagination.DecodedParts` | backend/src/common/pagination.ts:29-47 | only a readable timestamp, a separator and an id decode |
| `Pagination.DecodesExactly` | backend/src/common/pagination.ts:29-47 | a text decodes to a key if and only if it is a readable timestamp, the separator and the key's id |
| `Pagination.SortSorts` | backend/src/common/pagination.ts:78-85 | the reference order is a strict sort and a permutation of the table |
| `Pagination.QueryIsSlice` | backend/src/common/pagination.ts:86-98 | the keyset predicate at a row's key cuts the sorted table right after that row |
| `Pagination.PageIsNext` | backend/src/common/pagination.ts:119-126 | from any position a look-ahead page is the next slice, with a cursor if and only if rows are left |
| `Pagination.FetchAllCursorItems` | frontend/lib/cursor-pages.ts:18-40 | for every table and every limit the loop ends, no cursor repeats, and the items are a permutation of the table, newest first and higher id first among equals |
| `PaginationChanges.FollowChangingTable` | frontend/lib/cursor-pages.ts:18-40 | when every request meets the table of its moment, no cursor is refused or repeats, and at the end the items are in strict order and every row that was there throughout is among them |
| `PaginationChanges.EachOnce` | backend/src/common/pagination.ts:78-85 | in strict order no row comes twice |
| `PaginationChanges.PageCovers` | backend/src/common/pagination.ts:78-126 | a page of any table is sorted, beyond its cursor, and without a gap up to where it ends |
| `Money.RoundDivNearest` | frontend/lib/money.ts:81-87 | the quotient is a nearest integer, ties away from zero, for all signs |
| `Money.NearestUnique` | frontend/lib/money.ts:81-87 | only one integer is nearest in that sense |
| `Money.RoundDivOdd` | frontend/lib/money.ts:81-87 | rounding treats both signs alike |
| `Money.RoundDivMonotone` | frontend/lib/money.ts:81-87 | rounding keeps order |
| `Money.RoundTripBound` | frontend/lib/currency.tsx:155-170 | converting there and back moves an amount by at most 1/2 + rateTarget/(2 rateSource) cents |
| `Money.RoundTripExact` | frontend/lib/currency.tsx:155-170 | into a currency whose unit is worth less the way back is exact |
| `Money.ConvertToSelf` | frontend/lib/currency.tsx:155-160 | converting to the same rate changes nothing |
| `Money.ConvertIsNearest` | frontend/lib/currency.tsx:155-160 | without one of the rates the amount stays; with both it is the nearest to the exact amount, ties away from zero |
| `Money.ConvertMonotoneAndOdd` | frontend/lib/currency.tsx:155-170 | conversion keeps the order of amounts and treats debts like credits |
| `Money.DiscountInRange` | frontend/lib/money.ts:52-58 | a discount is within 0 and 100, within half a percent of the exact one, and not higher for a higher price |
| `Money.DiscountIsNearest` | frontend/lib/money.ts:52-58 | there is a discount if and only if the old price is positive and the new one lower and not negative, and then it is the nearest percentage |
| `Money.SumMoneyCentsByCurrency` | frontend/lib/money.ts:26-32 | every currency mentioned has exactly its total, and no other is listed |
| `MoneyText.MajorUnitsRoundTrip` | frontend/lib/money.ts:61-74 | parsing undoes printing for every amount of either sign |
| `MoneyText.DecimalStringRoundTrip` | backend/src/common/validation.ts:27-52 | exactly the amounts of the column's range are printed, and of these the server reads back what it printed if and only if the amount is not negative |
| `MoneyText.NegativeExample` | backend/src/common/validation.ts:45-52 | minus five cents prints as a text that the parser refuses |
| `MoneyText.ParsedPrints` | backend/src/common/validation.ts:27-52 | printing undoes parsing of exactly the canonical texts |
| `MoneyText.ParsedParts` | frontend/lib/money.ts:68-74 | digits, a separator and one or two digits are read as their exact value |
| `MoneyText.ParsedExactly` | frontend/lib/money.ts:68-74 | a text is read as an amount if and only if it is a numeral with at most two places of just that value |
| `MoneyText.ServerReads` | backend/src/common/validation.ts:27-38 | the server reads a text as an amount if and only if it is an unsigned numeral with a point and at most two places, of just that value, that fits the column |
| `MoneyText.FormReads` | frontend/lib/money.ts:68-74 | the form field is read as an amount if and only if it is such a numeral, with a point or a comma and perhaps a sign, of just that value |
| `RateText.Tokenized` | frontend/lib/currency.tsx:142-144 | a text is read as certain parts if and only if it is a spelling of them in the grammar |
| `RateText.RateIsExact` | frontend/lib/currency.tsx:138-154 | a rate is read if and only if its text is in the grammar, at most 96 characters with at most 36 digits, 18 places and an exponent within 36, below 10^36 without its point, and not zero; and then it is exactly the number written |
| `RateText.PlainRateRead` | frontend/lib/currency.tsx:138-154 | a plain decimal numeral that is not zero, of at most 36 digits with at most 18 places, is read digit for digit |

## Left out

- Refresh records and access tokens without a family, and the bridge from a pre-family session id to a family during rotation: only family-aware credentials are modelled.
- A revoke-all that spares a session of another account: the spared session is assumed to be one of the account's own, as its callers pass it.
- Undecodable JSON in Redis, the ban flag, the publishing of revocation events, and the single-token helpers `revokeSession` and `revokeRefreshToken`.
- Cryptography and random generation (HMAC, SHA-256, AES-GCM, bcrypt, JWT signing): tokens, hashes and secrets are values that do not repeat, and the keyed hash is a parameter.
- The lease protocol and the in-page lock as asynchronous functions: other tabs and calls interleave at every await or storage access, so both are modelled as steps of a machine and not as methods; enumeration of storage keys, broadcast messages and waiting times are not modelled, and the set of tabs is fixed in a run.
- LeaseBakery.AtMostOneHolder: assumes that no claim expires before its release; runs in which claims do expire are covered by LeaseSafety.AtMostOneLiveLease.
- Web Locks and the case without storage: only the storage lease and the in-page lock are modelled.
- PasswordResetTheorems.NewestLinkWorks: pointers without a generation are handled by the scripts but no run starts with one.
- Rate limits and delivery of reset mails, and email-verification tokens, which are the same scheme with fewer parties.
- RealtimeTheorems.RoomsInStep: speaks of the rooms that joins and leaves amount to in order, not of a count of messages, because a release called after `stop()` sends a leave for a room that is no longer referenced.
- The realtime client's event and state listeners, the error in its snapshot, listeners that call back synchronously, and a socket that closed before its listeners were attached.
- The realtime client without a terminal-failure callback: the callback is assumed to be given.
- Normalising a submitted backup code (trimming, upper case): whether the text is shaped like one is an input, false for six digits.
- The floating-point division in `counterAt`: times are whole milliseconds and the division is exact.
- Base64 around a cursor, the numbering of SQL placeholders, offset pages, and `buildNextCursor`, which may advertise one empty last page.
- Trimming of surrounding whitespace in amounts and rates, rates given as numbers, and the formatting of amounts for a locale.
- The sign-in store of the front end (epochs, pending-logout marker, hydration): one tab's flags without an ordering between tabs.
- Marketplace, ledger, catalog, notifications and all user interface.
