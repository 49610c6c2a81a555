# Game panel backend: verified core

A Dafny model of the stateful core of a game-server panel (`dst-go-backend`): the hub that routes
commands to agents, the agent that runs them, the SMS quota and code store, the request limiter,
and the token lifecycle. `dafny verify dfyconfig.toml` checks all of it.

Concurrent components are state machines. A *run* is any sequence of steps, each step is one critical
section, one store command or one callback, and a step that is not possible leaves the state
as it is, so a statement about every run is a statement about every interleaving. What the source
does by changing objects in place is also given as classes, whose methods are whole calls; the
`...Calls` modules show, call by call, that such a call is a run of the machine's steps with nothing
in between.

| module | what it holds |
|---|---|
| `HubModel`, `HubProofs` | the hub's critical sections, handlers, senders and deletions interleaving; the invariants of every run |
| `HubClass`, `HubCalls` | the hub, the agent manager's service and server deletion as objects; their calls as runs |
| `AgentModel`, `AgentProofs` | hub, one FIFO channel per connection and direction, and the agent's command handlers under one executor lock per process |
| `AgentClass`, `AgentCalls` | one agent command handler, its executor and its connection as objects; the handler as a run |
| `Windows`, `SmsQuota`, `SmsLimit` | expiring sorted-set keys; the quota scripts against a record of grants; the limiter object |
| `PlainQuota` | what the quota decides, told from the record alone and in numbers, and that the scripts decide it |
| `Limiter` | the sliding-window request limiter |
| `SmsCode`, `SmsService`, `SmsCalls` | code store and attempts, alone and composed with the quota; the service object; its calls as runs |
| `AuthModel`, `AuthProofs` | tokens, blacklist, resets and versions with the reads and writes of all calls interleaving |
| `AuthRotation` | exactly which runs keep rotations single and logouts final |
| `AuthForgetting` | the expiring blacklist against one that never forgets: exactly when their verdicts differ |
| `AuthService`, `AuthCalls` | user table, cache and service as objects; their calls as runs |
| `AuthEscapes` | runs in which a call outlives the token it parsed |

## Assumptions

- UUIDs (command ids, token ids, reservation ids, reset tokens) are fresh, and server ids are never reused.
- Each SQL statement and each Redis script or command is atomic. There is one clock of whole milliseconds that does not go back; a Redis key is visible up to and including its deadline.
- A token parses only if this service handed it out, it has the asked kind and now < exp (sections 4.1.4 and 4.1.7 of RFC 7519). Password hashing, captcha and the SMS client are parameters.
- A channel keeps order but may lose its tail. A write that reports failure may still have gone through. A write on a connection the agent has closed fails and sends nothing.
- A row deletion that reports an error removed nothing.
- The two tokens of a pair are signed at one instant, the one at which a rotation computes the remaining life of the old token.

## Where the code does less than it seems to promise

- **Rotation.** `RefreshToken` computes the remaining life of the old token and spends it in two steps. A rotation held up between them until the token's blacklist entry has expired can spend the token a second time (`AuthEscapes.RotationRepeatsWhenLate`, and from any state with a rotatable token `AuthEscapes.LateRotationCanRepeat`). `AuthRotation.RotationRepeatsExactly` and `OneLiveRefreshExactly` say over whole runs exactly when.
- **Logout of a session.** For the same reason a session can survive its logout: a rotation of the token that was logged out, or of the one before it, is held up past that token's expiry and then still hands out a live pair (`AuthEscapes.SessionSurvivesLogout`, `SiblingSurvivesLogout`). `AuthRotation.SessionEndsExactly` says exactly when the session stays ended; `LogoutHoldsExactly` speaks of the one token only.
- **Logout of an access token.** `Authenticate` parses the token and looks it up in two steps. One that is held up between them past the token's expiry misses a logout in between and accepts it (`AuthEscapes.AcceptedAfterLogout`). `AuthForgetting.ForgettingIsInvisible` is the exact condition for both kinds of delay, and callers that stay timely are safe (`AuthForgetting.TimelyRotationsAreSingle`).
- **Guesses per grant.** When storing a code reports failure but took effect, the reservation is given back, in a reply or without one, while the code can be guessed (`SmsCode.HiddenStoreEscapesQuota`). The codes of a phone are all backed by grants exactly when that has not happened to it (`SmsCode.CodesBackedExactly`), and then guesses stay within three per unreleased grant; always, within three per stored code.

## Model

| member | source | states |
|---|---|---|
| HubProofs.EveryCommandInOnePlace | internal/agent_manager/hub.go:57-127 | In every interleaving a command whose send succeeded is in exactly one place (pending on one open connection, drained by one closer, claimed by one handler, or reported); any other command is in none. |
| HubProofs.AtMostOneReport | internal/agent_manager/service.go:18-111 | No command gets two terminal callbacks, whatever the interleaving. |
| HubProofs.ReportsOnlySentCommands | internal/agent_manager/hub.go:76-108 | A command whose send failed never gets a terminal callback. |
| HubProofs.AnswersAreFinal | internal/agent_manager/service.go:87-111 | In every run, an answer reported for a command is a result or a rejecting ack, for the command it names. |
| HubProofs.IdleMeansWaitingOrReported | internal/agent_manager/hub.go:57-127 | With no close or claim under way, a sent command waits on a current connection or was reported: none is lost. |
| HubProofs.NoStrandedConnection | internal/agent_manager/hub.go:30-74 | Each connection is handed to `closeAgent` at most once and exactly when out of the map; an open one outside the map has exactly one closer; closed means nothing pending. |
| HubProofs.IdleMapIsOpenConnections | internal/agent_manager/hub.go:30-74 | With no close under way the map holds exactly the open connections. |
| HubProofs.EntryChangesOnly | internal/agent_manager/hub.go:30-55 | In every step a server's map entry changes only by a register for that server, its disconnect, or the unregister of the very handler whose connection it is; an older handler never removes a newer connection. |
| HubProofs.DeleteRegisterHandshake | internal/agent_manager/handler.go:73-86 | Once a row is deleted and the disconnect has looked at the map, a connection that passed its check is out of the map and closed or about to be drained; one still in the map has not checked yet or is leaving. |
| HubProofs.CheckDecides | internal/agent_manager/handler.go:76-86 | After registering a handler goes on to read exactly when the row is there and could be read; otherwise it leaves. |
| HubProofs.OfflineForGood | internal/service/server/service.go:182-198 | A server whose row was deleted is offline in every continuation if and only if no connection of it is registered and no handler of it is still about to register one. |
| HubClass.AgentHub.CloseAgent | internal/agent_manager/hub.go:57-74 | The connection is closed and drained, and each drained command is reported interrupted exactly once. |
| HubClass.Collect | internal/agent_manager/hub.go:62-65 | The loop lists each pending command exactly once. |
| HubClass.Callbacks.ReportInterrupted | internal/agent_manager/hub.go:69-73 | The loop reports each listed command once, in order. |
| HubClass.AgentHub.Register | internal/agent_manager/hub.go:30-42 | The new connection is installed, the previous one closed and its commands reported; nothing else changes. |
| HubClass.AgentHub.Unregister | internal/agent_manager/hub.go:44-55 | Takes out and closes this very connection, or changes nothing. |
| HubClass.AgentHub.Disconnect | internal/agent_manager/hub.go:144-153 | Takes out whatever connection the server has, closes it and reports its commands. |
| HubClass.AgentHub.Send | internal/agent_manager/hub.go:76-108 | Succeeds exactly when the current connection is open and the socket took the write; the id is then pending, and a failed write takes it out again and closes the socket. |
| HubClass.FailedSendLeavesNoTrace | internal/agent_manager/hub.go:88-105 | A failed send with a new id leaves the hub as it was. |
| HubClass.AgentHub.Finish | internal/agent_manager/hub.go:110-127 | Claims a command exactly when it waits on the server's current connection, and then removes it alone. |
| HubClass.AgentHub.IsOnline | internal/agent_manager/hub.go:129-135 | True exactly when the server has a current connection. |
| HubClass.AgentHub.Count | internal/agent_manager/hub.go:137-142 | The number of servers with a current connection. |
| HubClass.RegisterSettles | internal/agent_manager/hub.go:30-42 | A whole register keeps "the map is exactly the open connections, closed ones hold nothing". |
| HubClass.DisconnectSettles | internal/agent_manager/hub.go:144-153 | A whole disconnect or unregister keeps the same. |
| HubClass.Service.SendCommand | internal/agent_manager/service.go:71-85 | The caller gets the id exactly when the command went out and is pending. |
| HubClass.Service.HandleAck | internal/agent_manager/service.go:87-96 | An accepting ack fires its callback and leaves its command waiting; a rejecting one fires it, unchanged, exactly when its command was waiting, which it then no longer is. |
| HubClass.Service.HandleResult | internal/agent_manager/service.go:104-111 | Exactly when the command was waiting, the result callback fires with this server, id and result, and the command waits no longer. |
| HubClass.Service.ReadLoop | internal/agent_manager/handler.go:89-132 | The loop is the fold of its messages up to the first broken one. |
| HubClass.ReadLoopFires | internal/agent_manager/handler.go:89-132 | Told from the input alone, which messages fire: those before the first broken one that settle nothing, or settle a waiting command no earlier message settled; they fire in order, each passed on with the same server, id and content. |
| HubClass.ReadLoopConserves | internal/agent_manager/handler.go:89-132 | Over any input the waiting commands are exactly those still waiting plus those settled by a callback, disjointly, and none is settled twice. |
| HubClass.ServerService.DeleteRow | internal/repository/server/repository.go:102-125 | Removes the row exactly when it is the user's and has no archive; the refusals are told apart by a read. |
| HubClass.ServerService.Delete | internal/service/server/service.go:182-198 | After a removal the server is disconnected and its commands reported; any refusal leaves rows, hub and callbacks unchanged. |
| HubCalls.CloseRun | internal/agent_manager/hub.go:57-74 | A whole close is the run drain, report each id once in any order, end. |
| HubCalls.RegisterCall | internal/agent_manager/hub.go:30-42 | An undisturbed register of the machine has the effect the class promises. |
| HubCalls.UnregisterCall | internal/agent_manager/hub.go:44-55 | The same for unregister. |
| HubCalls.DeleteCall | internal/service/server/service.go:182-198 | The same for a server deletion with its disconnect. |
| HubCalls.SendCall | internal/agent_manager/hub.go:76-108 | The same for a send, with its verdict. |
| HubCalls.AnswerCall | internal/agent_manager/service.go:87-111 | The same for one turn of the read loop. |
| AgentProofs.ResultIsTrue | internal/agent_client/client.go:98-137 | Whenever the server fires a result, one handler took the command, its script was started at most once, and before the result the server had read the accepting ack and exactly the lines given to the log callback, those of each output reader in its own order; the result claims success if and only if the script was started and exited 0 (or 2 for status), and carries its exit code. |
| AgentProofs.SuccessIsTrue | internal/agent_client/client.go:98-137 | In particular a reported success is a script that was started exactly once and ended with a counting exit code. |
| AgentProofs.ResultsAreExact | internal/agent_client/executor.go:105-131 | The same of every handler that is over, whatever became of its connection. |
| AgentProofs.OneScriptAtATime | internal/agent_client/executor.go:26-36 | At most one script of an agent process runs at any time, across all connections. |
| AgentProofs.OneStartPerCommand | internal/agent_client/executor.go:26-94 | No command starts two scripts and no two handlers work on one command. |
| AgentProofs.BusyMeansRefused | internal/agent_client/executor.go:27-35 | A command that finds the executor taken reports failure and starts no script in any continuation. |
| AgentProofs.AnswersAttempted | internal/agent_client/client.go:105-137 | Log lines aside, a command is answered by one rejecting ack, or by one accepting ack and then exactly one result; nothing is tried for a command that was not taken. |
| AgentProofs.HubRunsOn | internal/agent_manager/handler.go:89-132 | Seen from the hub, every run with channels and agents is a run of the hub machine. |
| AgentProofs.OneOutcomePerCommand | internal/agent_manager/service.go:71-111 | With channels and agents attached each command still gets at most one terminal callback, and only if its send succeeded. |
| AgentClass.DeliveredIsPrefix | internal/agent_client/client.go:117-137 | Because a failed write closes the connection, what arrives is a prefix of ack, lines, result. |
| AgentClass.Executor.ReadOutput | internal/agent_client/executor.go:144-156 | Every line is handed to the log callback in order. |
| AgentClass.Executor.Execute | internal/agent_client/executor.go:26-142 | Starts the script exactly when the executor is free, the action is supported and preparing it works; success if and only if it then exits 0, or 2 for status; the exit code is its own, else -1; the lock is freed on every path. |
| AgentClass.HandleCommand | internal/agent_client/client.go:117-137 | Attempts ack, lines and result in that order, with the result `Execute` promises; if the connection is still open all of it was sent; the executor is left as it was found. |
| AgentCalls.HandleCommandIsRun | internal/agent_client/client.go:117-137 | A whole command handler is a run of the machine in which only this handler moves: the same messages arrive, the same result is reported, the lock is as before, and the script starts exactly when the executor was free. |
| PlainQuota.QuotaRefinesLog | internal/repository/cache/sms_limit.go:47-88 | For every run of reserve and release, the trimmed and expiring keys give the decisions told from a full record alone: reason 1 or 2 when the IP or phone has its allowance of grants in (now - 60000, now], 3 or 4 when on this UTC+8 day, in that order, else a grant. |
| SmsQuota.ReleaseUndoesReserve | internal/repository/cache/sms_limit.go:70-88 | After any run, a grant released at once changes no later answer. |
| PlainQuota.QuotaBounds | internal/repository/cache/sms_limit.go:51-77 | After any run no minute (t - 60000, t], wherever it ends, and no UTC+8 day of any IP or phone holds more unreleased grants than the policy. |
| PlainQuota.SendPolicyBounds | internal/service/sms/service.go:68-78 | With the constants used, two unreleased grants of one phone are at least 60000 ms apart and at most five fall on one UTC+8 day; of one IP at most 10 fall in any minute and 50 on one day. |
| PlainQuota.SendDecides | internal/service/sms/service.go:68-94 | After any run the next request is decided by 10 and 1 a minute and 50 and 5 a day. |
| PlainQuota.GrantDeadlines | internal/repository/cache/sms_limit.go:70-77 | A grant keeps a minute key for 60000 ms and a day key until the next UTC+8 midnight. |
| SmsQuota.ApplyRelated | internal/repository/cache/sms_limit.go:47-88 | One call answers as the record does and keeps keys and record related. |
| SmsQuota.FirstFull | internal/repository/cache/sms_limit.go:64-68 | The reason is the first full key in order, or 0 when none is. |
| SmsLimit.Limit.TrimKeys | internal/repository/cache/sms_limit.go:56-62 | Every key is trimmed to its window, no other changes. |
| SmsLimit.Limit.FindFull | internal/repository/cache/sms_limit.go:64-68 | Finds the first full key. |
| SmsLimit.Limit.AddToKeys | internal/repository/cache/sms_limit.go:70-77 | Adds the grant to every key with its new deadline. |
| SmsLimit.Limit.RunReserve | internal/repository/cache/sms_limit.go:47-80 | The loops together are the reserve script the theorems are about. |
| SmsLimit.Limit.RunRelease | internal/repository/cache/sms_limit.go:83-88 | Removes the grant from every key. |
| SmsLimit.Limit.Reserve | internal/repository/cache/sms_limit.go:90-122 | A bad policy or an unreachable store changes nothing; otherwise the reason is that of the first key, IP minute, phone minute, IP day, phone day, whose visible members of the last 60000 ms or of this UTC+8 day reach their limit. |
| SmsLimit.Limit.Release | internal/repository/cache/sms_limit.go:124-138 | Removes the reservation, or changes nothing when the store is unreachable. |
| Limiter.AllowIsExact | internal/platform/redis/limiter.go:22-39 | After any run, a call is allowed exactly when fewer than `limit` of all grants ever made have now - window < time <= now; neither trimming nor the rounded-up expiry ever drops one that counts. |
| Limiter.WindowNeverExceeds | internal/platform/redis/limiter.go:22-39 | No window (t - window, t], wherever it ends, holds more grants than the limit. |
| Limiter.RateLimiter.Allow | internal/platform/redis/limiter.go:42-57 | Allowed exactly when fewer than `limit` visible members are less than a window old; then this one is added to them; no other key changes, and an unreachable store is an error that changes nothing. |
| SmsCode.ThreeGuessesPerCode | internal/repository/cache/sms_cache.go:31-56 | Over every run each stored code is compared at most three times and matched at most once. |
| SmsCode.VerifyJudgesLatestCode | internal/repository/cache/sms_cache.go:37-56 | A guess matches exactly when it equals the latest code stored for the phone, at most five minutes ago, compared fewer than three times and never matched; the third wrong guess alone reports exhaustion. |
| SmsCode.GuessesWithinGrants | internal/service/sms/service.go:99-106 | Comparisons for a phone never exceed three times its unreleased grants, unless a release took the grant of a call for it whose code had been stored. |
| SmsCode.CodesBackedExactly | internal/service/sms/service.go:99-106 | Every code stored for a phone is backed by an unreleased grant if and only if no call that stored one lost its grant to a release, reported or not. |
| SmsCode.GuessesWhenStoresTell | internal/service/sms/service.go:99-106 | The bound holds in every run in which a store that reported failure wrote nothing. |
| SmsCode.GuessesWithinCodes | internal/repository/cache/sms_cache.go:31-56 | Without that condition they never exceed three times the codes stored. |
| SmsCode.FifteenGuessesPerDay | internal/service/sms/service.go:44-117 | The codes whose unreleased grant for a phone falls on one calendar day take at most 15 guesses together. |
| SmsCode.HiddenStoreEscapesQuota | internal/service/sms/service.go:99-106 | A run with a guess and no grant, when a failing store took effect. |
| SmsService.CodeStore.SetCode | internal/repository/cache/sms_cache.go:58-69 | Refuses a life under one millisecond; otherwise overwrites code, attempts and deadline. |
| SmsService.CodeStore.ConsumeCode | internal/repository/cache/sms_cache.go:71-81 | The consume script and its three verdicts. |
| SmsService.Service.SendCode | internal/service/sms/service.go:44-117 | Which result each failure gives; quota is charged exactly when the code was stored or could not be given back. |
| SmsService.Service.VerifyCode | internal/service/sms/service.go:119-132 | True exactly on a match; an outage changes nothing. |
| SmsCalls.SendCodeIsRun | internal/service/sms/service.go:68-106 | After any run, a whole send is a run of the machine with the effect the service promises on quota keys and codes, ending with the code stored, the grant returned or the grant kept. |
| SmsCalls.VerifyCodeIsRun | internal/service/sms/service.go:119-132 | The same for a verification. |
| AuthProofs.PasswordLineage | internal/service/auth/service.go:192-233 | Whenever `Authenticate` accepts a token descended through any rotations from a password login or registration, the stored hash is the one that login compared or registration stored. |
| AuthProofs.AcceptsExactly | internal/service/auth/service.go:94-103 | In every step of every run `Authenticate` accepts exactly a token past the blacklist whose user exists, is enabled and has its version, and such a token was handed out as an access token. |
| AuthProofs.DisabledIsRefused | internal/service/auth/service.go:94-103 | From any reachable state with a user disabled, until the user is enabled again, no token of the user is accepted or let on into a rotation, and neither login lets the user in. |
| AuthProofs.ReadsDecide | internal/service/auth/service.go:192-305 | What the lookup and the reads by token, phone and reset id ask for, by field. |
| AuthProofs.SignedPair | internal/platform/jwt/jwt.go:45-72 | A signed pair carries user, version and ids, and each kind its own life, in whole seconds rounded down. |
| AuthProofs.ResetLivesTenMinutes | internal/service/auth/service.go:388-395 | A stored reset can be used for ten minutes, and not after its cleanup. |
| AuthProofs.NothingAheadOfUser | internal/service/auth/service.go:275-335 | No token handed out and no stored reset carries a version above its user's. |
| AuthProofs.StaleTokensRefusedForever | internal/service/auth/service.go:100-103 | A token of an earlier version is refused in every later state, also when signed by a call in flight during the reset. |
| AuthProofs.ResetPassesOldVersions | internal/service/auth/service.go:399-444 | A successful reset stores the new hash and moves the user past every version handed out before. |
| AuthProofs.ResetsSwapOnce | internal/repository/user/repository.go:123-145 | No two successful resets share user and version, and a user's version is one more than its successful resets. |
| AuthRotation.RotationRepeatsExactly | internal/repository/cache/auth_cache.go:53-69 | Over every run some refresh token is rotated twice if and only if some rotation reaches its spend after the deadline of the entry an earlier rotation of that token left. |
| AuthRotation.OneLiveRefreshExactly | internal/service/auth/service.go:307-334 | Throughout a run each login has at most one live refresh token if and only if no spend goes through while its login has another live one and the one about to be handed out is unexpired. |
| AuthRotation.OneLiveRefreshPerLogin | internal/service/auth/service.go:307-334 | As long as no rotation reaches its spend after the deadline of an entry of its token, each login has at most one live refresh token and no token is rotated twice. |
| AuthForgetting.ForgettingIsInvisible | internal/service/auth/service.go:338-366 | Rotations and `Authenticate` give over the expiring blacklist the verdicts they give over one that never forgets, if and only if no rotation reaches its spend after the deadline of an entry of its token and no `Authenticate` accepts a token that was listed when it looked it up. |
| AuthForgetting.SameRuns | internal/service/auth/service.go:73-110 | With neither a late spend nor a late lookup the runs over both blacklists are the same state for state. |
| AuthForgetting.TimelyRotationsAreSingle | internal/service/auth/service.go:307-334 | In every run where no call outlives the token it is about to spend or look up: one live refresh token per login, no token rotated twice, and the very run of a permanent blacklist. |
| AuthRotation.LogoutRefusesExactly | internal/service/auth/service.go:338-366 | In every state after a logout, a token it was given unexpired stays listed and is refused while it would parse; a rotation or an `Authenticate` that parsed it before still gets past the blacklist if and only if the entry's deadline, not before the token's expiry, has passed. |
| AuthRotation.LogoutHoldsExactly | internal/service/auth/service.go:338-348 | In the rest of a run the very refresh token that was logged out is never rotated if and only if no rotation of it reaches its spend after the entry's deadline. |
| AuthRotation.SessionEndsExactly | internal/service/auth/service.go:338-348 | A logout given the login's only live refresh token has ended the session, and it stays ended for the rest of the run if and only if no spend of any refresh token of the login goes through that hands out an unexpired one. |
| AuthRotation.DeadStaysDeadExactly | internal/service/auth/service.go:307-334 | The same from any reachable state for any login without a live refresh token. |
| AuthRotation.ListedRotatesExactly | internal/repository/cache/auth_cache.go:42-69 | The same from any reachable state for any token that was spent or revoked. |
| AuthEscapes.LateRotationCanRepeat | internal/service/auth/service.go:307-334 | From any state with a rotatable refresh token there is a run that rotates it twice. |
| AuthEscapes.RotationRepeatsWhenLate | internal/service/auth/service.go:307-334 | Such a run from the start. |
| AuthEscapes.LogoutCanBeOutlived | internal/service/auth/service.go:338-366 | From any such state a logout of the token succeeds and a rotation held up past its expiry then goes through, for the same session. |
| AuthEscapes.SessionSurvivesLogout | internal/service/auth/service.go:338-366 | A run from the start in which a refresh token of a logged-out login is live. |
| AuthEscapes.SiblingOutlivesLogout | internal/service/auth/service.go:307-348 | From any state with a rotatable refresh token: two rotations race, the winner's refresh token is logged out in time, and the loser, held up, still hands out a live one for the session. |
| AuthEscapes.SiblingSurvivesLogout | internal/service/auth/service.go:307-348 | Such a run from the start, in which the token that was logged out is never rotated. |
| AuthEscapes.LogoutMissedByAuthenticate | internal/service/auth/service.go:78-103 | From any state with an acceptable access token: a call that parsed it before its logout and looks it up after its expiry accepts it; over a permanent blacklist the same events accept nothing. |
| AuthEscapes.AcceptedAfterLogout | internal/service/auth/service.go:78-103 | Such a run from the start. |
| AuthService.UserTable.Create | internal/repository/user/repository.go:36-38 | Adds the row exactly when name and phone are free. |
| AuthService.UserTable.UpdatePassword | internal/repository/user/repository.go:123-145 | Compare and swap on the version; conflict and absence are told apart. |
| AuthService.AuthCache.ConsumeRefreshToken | internal/repository/cache/auth_cache.go:53-69 | Wins exactly when no unexpired entry exists, and then leaves one. |
| AuthService.Service.Authenticate | internal/service/auth/service.go:73-110 | Accepts exactly a signed access token with now < exp that the cache does not remember and whose row exists, is enabled and has its version. |
| AuthService.Service.Login | internal/service/auth/service.go:192-233 | When it succeeds; the pair then descends from this call and from the hash stored now. |
| AuthService.Service.LoginBySMS | internal/service/auth/service.go:235-272 | When it succeeds; its pair has no password lineage. |
| AuthService.Service.Register | internal/service/auth/service.go:123-189 | Creates the user exactly when all checks pass and hands out a pair exactly when signing succeeds too; a failed signature leaves the user, any other failure changes nothing. |
| AuthService.RegisterGrants | internal/service/auth/service.go:159-188 | The pair of a registration is admitted and carries the stored hash as its lineage. |
| AuthService.Service.RefreshToken | internal/service/auth/service.go:275-335 | Hands out a pair exactly for a signed, unexpired, unspent refresh token whose row exists, is enabled and has its version, and spends it until its expiry; 403 exactly for a disabled account, 409 exactly for a spent token. |
| AuthService.RefreshSpends | internal/service/auth/service.go:307-334 | A rotation hands its pair the old token's origin and leaves the old token unusable. |
| AuthService.RefreshRefuses | internal/service/auth/service.go:275-335 | A refused rotation changes nothing but the ids used up. |
| AuthService.Service.RevokeToken | internal/service/auth/service.go:350-366 | Blacklists until its expiry exactly an unexpired token of the kind it was given as. |
| AuthService.Service.Logout | internal/service/auth/service.go:338-348 | On success each unexpired token given is blacklisted until its expiry; fails exactly when a needed write fails. |
| AuthService.Service.VerifyResetCode | internal/service/auth/service.go:369-396 | Stores a reset at the user's current version for ten minutes exactly when the code is valid and the stores answer. |
| AuthService.Service.ResetPassword | internal/service/auth/service.go:399-444 | Swaps exactly when the reset is known, unexpired and at the user's version; the outcome does not depend on cleanup. |
| AuthCalls.AuthenticateIsRun | internal/service/auth/service.go:73-110 | Parse, lookup and row read of the machine accept the token exactly when `Authenticate` does. |
| AuthCalls.LoginIsRun | internal/service/auth/service.go:203-233 | The login's effect is a run of the machine that ends the call. |
| AuthCalls.LoginBySMSIsRun | internal/service/auth/service.go:245-272 | The same for the SMS login. |
| AuthCalls.RegisterIsRun | internal/service/auth/service.go:159-189 | The same for a registration. |
| AuthCalls.RefreshIsRun | internal/service/auth/service.go:275-335 | The same for a rotation, granted or refused. |
| AuthCalls.LogoutIsRun | internal/service/auth/service.go:338-366 | The same for a logout, which ends logged out with exactly the tokens presented and each one that parsed revoked. |
| AuthCalls.VerifyResetCodeIsRun | internal/service/auth/service.go:378-395 | The same for the first half of a password reset. |
| AuthCalls.ResetPasswordIsRun | internal/service/auth/service.go:399-444 | The same for the second half, whatever the swap and the cleanup answer. |

## Left out

- HTTP handlers, routing, middleware, configuration, logging, captcha images, SMS clients, and the JWT, bcrypt, AES-GCM, WebSocket and JSON libraries: plumbing or foreign code.
- Server, archive and task CRUD, pagination and profile responses: easy members.
- `scripts/dst.sh`, heartbeat and read-deadline timing, the identity file and the reconnect loop: of these only "a new connection may appear at any time" is kept.
- `buildArgs`: only that an unsupported action starts no script; the argument lists would add an easy member.
- Unset callbacks: every callback of the agent manager is taken to be set.
- The issuer and not-before claims of a token, and lives shorter than a millisecond, are not represented; a failing signature call is represented for a registration only, since elsewhere it changes nothing.
- Lua prints numbers with 14 significant digits; times in milliseconds are taken to stay below that bound.
- A reserve whose reply was lost after the script ran is not represented; a call that cannot reach the store changes nothing.
- SmsService.Service.SendCode: the random code is a parameter, so a failing random source is not represented.
- Limiter.AllowIsExact: each limiter key is used with one window, as its callers do, and the script runs at the time it was given.
- AgentClass.HandleCommand: the two output readers are one sequence here, in the order in which they hand lines over; `AgentModel` interleaves them.
- AuthRotation.OneLiveRefreshPerLogin: holds under the stated condition, since the code does not meet it without; `OneLiveRefreshExactly` gives the exact one.
- Single-statement methods of the user table, the cache and the service that only forward to a store (`GetByID`, `GetByPhone`, `AddTokenToBlacklist`, `IsTokenInBlacklist`, `SetResetToken`, `GetResetToken`, `DelResetToken`, `HandleLog`) are modelled but state nothing beyond their statement, so they have no row.
- A write of the authentication stores that took effect although its reply was lost (spending a refresh token, blacklisting, updating the password, storing a reset) is not represented; such a call changes nothing here.
