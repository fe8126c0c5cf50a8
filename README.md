# WOTP in Dafny: the WhatsApp session supervisor and the OTP pipeline around it

WOTP is a service that sends one-time passwords and transactional messages over WhatsApp. This project
models its core in Dafny and proves properties of that model.

The centre is the session supervisor `ClientManager`. It keeps one transport socket per
`userId:sessionId` key, together with the key's in-memory status, strike count and reconnection timer.
It reacts to the transport's `connection.update` events:
- a pairing code is published on the session's channel;
- `open` marks the session connected;
- `close` either schedules a reconnection with capped exponential backoff or tears the session down.

`sendMessage` is a bounded retry loop with a grace wait for sessions that are still connecting.

Around the supervisor the model covers:
- the Mongo-backed credential store (`SessionStore`);
- the façade that every caller goes through, which always targets the default session;
- the two delivery workers (OTP and transactional message);
- the OTP service: quotas with a day rollover, the charsets, one-shot case-insensitive verification and API-key material;
- the decision logic of the OTP, message, WhatsApp and user controllers;
- Google account linking;
- the dashboard's key-masking field.

Modules follow the source files:

| module | file | models |
|---|---|---|
| `Types` | types.dfy | shared vocabularies: plans, log and connection statuses, `Option`/`Result`, the bcrypt digest |
| `Text` | text.dfy | string helpers: digits, upper case, containment, split, slice, repeat, replace-all |
| `Db` | db.dfy | the collections (`Database`) and Redis (`Redis`) as classes with map/seq fields, and the query semantics used: newest match, first match, filter, sort, skip/limit |
| `SessionStore` | session_store.dfy | `KEY_MAP`, `useMongoAuthState`, `deleteSession` |
| `WhatsAppClients` | client_manager.dfy | `ClientManager` as a class over its four maps, plus socket and timer tokens |
| `WhatsAppFacade` | whatsapp_service.dfy | `WhatsAppService` |
| `Jobs` | jobs.dfy | what both workers share: queue options and the warm-up poll |
| `OtpQueue`, `MessageQueue` | otp_queue.dfy, message_queue.dfy | the job processors |
| `OtpService` | otp_service.dfy | `generateAndStoreOtp`, `verifyOtp`, `generateApiKey`, `hashApiKey` |
| `OtpController`, `MessageController`, `WhatsAppController`, `UserController` | *_controller.dfy | the handlers' checks, writes and replies |
| `AuthService` | auth_service.dfy | `verifyGoogleToken`'s payload check, `findOrCreateUser`, `getOtpLimit` |
| `CopyField` | copy_field.dfy | the masked display and the copied text |

How the environment is represented:
- Each event handler, timer callback, worker job and HTTP handler is one atomic method call.
- Timers are tokens in the supervisor's `timers` map, and `FireTimer` runs one of them.
- Anything the source reads after a suspension point is a parameter of the method: the statuses a send
  re-reads after its waits (`SendEnv`), the statuses a worker polls, and the notices published while a
  pairing request waits.
- So are the outcomes of calls whose code is not part of the model: transport acceptance, database
  failures, random draws, UUIDs, fresh record ids and the clock (as a day and an instant).
- bcrypt is the injective constructor `Bcrypt`, so "the hashes match" means "the hashed strings are
  equal".
- The hex SHA-256 digest of an API key is the string `HexDigest`, which writes each character as six
  hexadecimal digits. Like the real digest it is a hex string of the same type as a raw key, and different
  keys give different digests. So the `key` column's two lookups (`{key: hashedKey}` or `{key: rawKey}`)
  compare one string against two candidates, as in the source.

## Model

| member | source | states |
|---|---|---|
| WhatsAppClients.CompositeKey | backend/src/services/whatsapp/ClientManager.ts:28-30 | the key is `userId + ":" + sessionId`; its length is the two lengths plus one |
| WhatsAppClients.CompositeKeyInjective | backend/src/services/whatsapp/ClientManager.ts:28-30 | for user ids without `:`, equal keys mean equal (user, session) pairs |
| WhatsAppClients.Channel | backend/src/services/whatsapp/ClientManager.ts:84 | the pairing channel starts with `whatsapp:qr:`, holds the user id right after it and ends with the session id; its length is the three lengths plus one (the `:`) |
| WhatsAppClients.Pow2 | backend/src/services/whatsapp/ClientManager.ts:128 | `Math.pow(2, n)` on naturals. The contract only bounds it below by 1; its values in the backoff are pinned by `BackoffSchedule` |
| WhatsAppClients.Pow2Monotone | backend/src/services/whatsapp/ClientManager.ts:128 | powers of two grow with the exponent |
| WhatsAppClients.Backoff | backend/src/services/whatsapp/ClientManager.ts:128 | the delay is `min(5000·2^(n-1), 30000)`: never above 30 s, and exactly the doubling when that is within the cap |
| WhatsAppClients.BackoffSchedule | backend/src/services/whatsapp/ClientManager.ts:128 | the delays for strikes 1 to 5 are 5, 10, 20, 30 and 30 s |
| WhatsAppClients.BackoffMonotone | backend/src/services/whatsapp/ClientManager.ts:128 | a later strike never waits less |
| WhatsAppClients.Decide | backend/src/services/whatsapp/ClientManager.ts:116-146 | reconnect iff the status code is neither 401 nor 403 and the strike count is below 3; a reconnection waits 5 or 10 s; teardown reason priority: max attempts > unauthorized > permanent failure |
| WhatsAppClients.PhoneOfDeviceJid | backend/src/services/whatsapp/ClientManager.ts:94 | the stored phone of a device JID `<phone>:<device>@…` is `<phone>` |
| WhatsAppClients.StatusOf | backend/src/services/whatsapp/ClientManager.ts:216-223 | open, connecting and closed map one-to-one to connected, connecting and disconnected |
| WhatsAppClients.Jid | backend/src/services/whatsapp/ClientManager.ts:204 | the recipient ends with `@s.whatsapp.net`, everything before it is digits and no longer than the phone, and a phone of digits only is kept as it is |
| WhatsAppClients.TryOnce | backend/src/services/whatsapp/ClientManager.ts:185-211 | one attempt: with no socket, it fails at once with the no-session error; it grace-waits exactly when the socket's session is connecting; it transmits at most once, and only on an open session after the re-read; it succeeds iff it transmitted and the transport accepted |
| WhatsAppClients.SendFrom | backend/src/services/whatsapp/ClientManager.ts:184-213 | the remaining attempts: between 1 and the number left; a failure uses them all |
| WhatsAppClients.SendFromCounts | backend/src/services/whatsapp/ClientManager.ts:184-213 | one 2 s pause after every attempt but the last; at most one grace wait and one transmission per attempt; a success ends with its transmission |
| WhatsAppClients.SendIsBounded | backend/src/services/whatsapp/ClientManager.ts:181-212 | a send makes at most 3 attempts and waits at most 13 s in total |
| WhatsAppClients.SendOpenFirstTry | backend/src/services/whatsapp/ClientManager.ts:186-206 | an open session whose transport accepts sends on the first attempt without waiting |
| WhatsAppClients.SendWithoutSession | backend/src/services/whatsapp/ClientManager.ts:184-213 | with no socket at any attempt, the send pauses twice, transmits nothing and fails with the no-session error |
| WhatsAppClients.SendFailureIsLastAttempt | backend/src/services/whatsapp/ClientManager.ts:207-213 | the error thrown is the third attempt's |
| WhatsAppClients.ClientManager.NextAttempt | backend/src/services/whatsapp/ClientManager.ts:117 | the strike number of a close: a key with no stored count is on strike 1, and otherwise the strike exceeds the stored count; `OnClose` and `Decide` use the exact value |
| WhatsAppClients.ClientManager.constructor | backend/src/services/whatsapp/ClientManager.ts:22-26 | all four maps start empty and the invariant holds |
| WhatsAppClients.ClientManager.GetStatus | backend/src/services/whatsapp/ClientManager.ts:216-223 | no status iff the key was never started; otherwise the open/connecting/closed status in connection vocabulary |
| WhatsAppClients.ClientManager.StartSession | backend/src/services/whatsapp/ClientManager.ts:32-155 | with a socket already there, nothing changes; otherwise the status becomes connecting, the connection record is upserted as connecting and the default session is mirrored on the user; unless setup fails, a fresh socket becomes the key's client with the loaded credentials and a 120 s watchdog is armed |
| WhatsAppClients.ClientManager.StartNew | backend/src/services/whatsapp/ClientManager.ts:40-155 | for a key without a socket: connecting in memory, upserted and mirrored; setup failure leaves sockets, clients and timers alone, otherwise a fresh socket with the loaded credentials and a watchdog |
| WhatsAppClients.ClientManager.MarkConnecting | backend/src/services/whatsapp/ClientManager.ts:40-41 | only the key's status changes, to connecting |
| WhatsAppClients.ClientManager.OpenSocket | backend/src/services/whatsapp/ClientManager.ts:59-76 | the stored (or fresh) credentials are loaded into a fresh socket that becomes the key's client, with a watchdog armed |
| WhatsAppClients.ClientManager.AddSocket | backend/src/services/whatsapp/ClientManager.ts:62-76 | a fresh socket id becomes the key's client and a fresh watchdog token is armed |
| WhatsAppClients.ClientManager.ClearReconnectTimer | backend/src/services/whatsapp/ClientManager.ts:109-111 | the key's reconnection timer is cancelled and forgotten; other timers stay |
| WhatsAppClients.ClientManager.OnQr | backend/src/services/whatsapp/ClientManager.ts:83-86 | exactly one qr notice is appended on the session's channel |
| WhatsAppClients.ClientManager.OnOpen | backend/src/services/whatsapp/ClientManager.ts:88-112 | status open, strikes forgotten, the existing connection record set to connected with phone and name, the default session mirrored, a connected notice published and the reconnection timer cleared |
| WhatsAppClients.ClientManager.MarkOpen | backend/src/services/whatsapp/ClientManager.ts:88-111 | status open, strikes forgotten and the reconnection timer cleared; nothing else in memory changes |
| WhatsAppClients.ClientManager.MarkClosed | backend/src/services/whatsapp/ClientManager.ts:114-125 | status closed and the key's client forgotten |
| WhatsAppClients.ClientManager.OnClose | backend/src/services/whatsapp/ClientManager.ts:114-147 | status closed and the client removed in every case. When `Decide` says reconnect: the strike is stored, one reconnection token is armed with its delay, and the user is shown connecting. Otherwise: credentials deleted, strikes forgotten, the connection (and the default user) disconnected, the reason published |
| WhatsAppClients.ClientManager.ScheduleReconnect | backend/src/services/whatsapp/ClientManager.ts:128-133 | one reconnection token with the delay, recorded as the key's timer; the default session's user shown as connecting |
| WhatsAppClients.ClientManager.TearDown | backend/src/services/whatsapp/ClientManager.ts:134-146 | the session's credential records are removed, strikes forgotten, the connection and the default user marked disconnected, and the error notice published |
| WhatsAppClients.ClientManager.OnConnectionUpdate | backend/src/services/whatsapp/ClientManager.ts:80-148 | the whole new state of each case, for the session the socket was created for (even a replaced one). A non-empty code is published first (`QrPublications`). `open` has `OnOpen`'s effect. `close` has `OnClose`'s: Decide's reconnect (strike, timer, user shown connecting) or teardown (credentials, db rows, error notice). Any other event changes nothing but the publications |
| WhatsAppClients.ClientManager.OnCredsUpdate | backend/src/services/whatsapp/ClientManager.ts:78 | the updated credentials are written back under (creds, default) unless the write fails |
| WhatsAppClients.ClientManager.ForgetClient | backend/src/services/whatsapp/ClientManager.ts:160-167 | the key's socket is returned and forgotten and its reconnection timer cleared |
| WhatsAppClients.ClientManager.StopSession | backend/src/services/whatsapp/ClientManager.ts:158-177 | the key's socket is returned for logout and forgotten; the reconnection timer is cleared; credentials deleted; connection and default user disconnected; status and strikes untouched |
| WhatsAppClients.ClientManager.FireTimer | backend/src/services/whatsapp/ClientManager.ts:127-155 | the whole new state for each case. A reconnection timer of a session that has a client again only spends the timer. Otherwise it runs `startSession`: the connecting phase, connection row and user mirror, unchanged strikes and reconnect entries (the stale entry stays), and the new client and watchdog unless setup fails. A watchdog of a session still connecting runs `stopSession`: the client, the reconnect entry and its timer removed, credentials dropped, the row and the user mirror disconnected. Any other watchdog only spends itself |
| WhatsAppClients.ClientManager.SendMessage | backend/src/services/whatsapp/ClientManager.ts:179-214 | the loop's outcome, waits, transmissions and attempt count equal `SendSpec` from the supervisor's current view |
| WhatsAppClients.ClientManager.SendAttempt | backend/src/services/whatsapp/ClientManager.ts:185-211 | one loop body's error and steps equal `TryOnce` |
| SessionStore.StoredType | backend/src/services/whatsapp/SessionStore.ts:10-17 | each transport key type has a `KEY_MAP` entry, and none is the credentials' type |
| SessionStore.KeyMapKeys | backend/src/services/whatsapp/SessionStore.ts:10-17 | `KEY_MAP` has exactly the six transport type names as keys |
| SessionStore.StoredTypeInjective | backend/src/services/whatsapp/SessionStore.ts:10-17 | distinct key types are stored under distinct data types |
| SessionStore.WithoutSession | backend/src/services/whatsapp/SessionStore.ts:98-101 | exactly the records of other sessions survive, unchanged |
| SessionStore.DeleteSession | backend/src/services/whatsapp/SessionStore.ts:98-101 | the table loses exactly the session's records |
| SessionStore.MongoAuthState.TargetInjective | backend/src/services/whatsapp/SessionStore.ts:61-85 | distinct (type, id) pairs are kept in distinct records |
| SessionStore.MongoAuthState.constructor | backend/src/services/whatsapp/SessionStore.ts:19-55 | the credentials are the stored (creds, default) record when it can be read, else fresh ones |
| SessionStore.MongoAuthState.WriteData | backend/src/services/whatsapp/SessionStore.ts:24-34 | upsert of the one record for the key, or no change when the write fails |
| SessionStore.MongoAuthState.ReadData | backend/src/services/whatsapp/SessionStore.ts:36-45 | a value iff the read succeeds and the record exists, and then the stored value |
| SessionStore.MongoAuthState.RemoveData | backend/src/services/whatsapp/SessionStore.ts:47-53 | removes the one record, or nothing when the removal fails |
| SessionStore.MongoAuthState.KeysGet | backend/src/services/whatsapp/SessionStore.ts:61-73 | an entry for exactly the requested ids with a readable stored value; app-state sync keys rebuilt |
| SessionStore.MongoAuthState.KeysSet | backend/src/services/whatsapp/SessionStore.ts:74-89 | every pair with a value is written, every pair without one removed (unless its write fails), and no other record changes |
| SessionStore.MongoAuthState.SaveCreds | backend/src/services/whatsapp/SessionStore.ts:92-94 | writes the current credentials under (creds, default) |
| WhatsAppFacade.WhatsAppService.constructor | backend/src/services/whatsapp.service.ts:9-38 | the façade wraps the given supervisor |
| WhatsAppFacade.WhatsAppService.Connect | backend/src/services/whatsapp.service.ts:10-17 | starts the default session whatever session was asked for, and a failure is only logged. A running default session is left alone; otherwise `SessionStarted`: the connecting phase, upserted row and user mirror, and the new socket, client and watchdog unless setup fails |
| WhatsAppFacade.WhatsAppService.Disconnect | backend/src/services/whatsapp.service.ts:19-21 | stops the default session whatever session was asked for: its client, reconnect entry and that entry's timer removed, its credentials dropped, its row and the user disconnected; other sessions' rows are untouched |
| WhatsAppFacade.WhatsAppService.GetStatus | backend/src/services/whatsapp.service.ts:23-25 | whatever session is asked for: none iff the default session was never started, else the default session's phase in connection vocabulary |
| WhatsAppFacade.WhatsAppService.SendMessage | backend/src/services/whatsapp.service.ts:27-35 | true iff the default session's send completes; false when it throws |
| WhatsAppFacade.StatusIgnoresSession | backend/src/services/whatsapp.service.ts:23-25 | the façade answers the same for every session of a user |
| Jobs.RetryDelay | backend/src/jobs/otp.queue.ts:25-26 | the exponential backoff: the first retry waits the base delay and each later retry waits twice the one before, so never less than the base; `OtpRetrySchedule` and `MessageRetrySchedule` give the queues' values |
| Jobs.PollUntilConnected | backend/src/jobs/otp.queue.ts:57-60 | at most the bound of polls, at least one; stops at the first connected read; every earlier read was not connected |
| Jobs.WarmUp | backend/src/jobs/otp.queue.ts:51-61 | a restart (through the façade) happens iff the status reads exactly disconnected; without a restart nothing changes and no poll is made. A restart is `SessionStarted` for the default session and then the polls follow `PollStopped`: no earlier read was connected, and stopping early means the last read was |
| OtpQueue.OtpRetrySchedule | backend/src/jobs/otp.queue.ts:24-28 | 3 attempts; retries after 2 s and 4 s |
| OtpQueue.OtpMessage | backend/src/jobs/otp.queue.ts:63-67 | an absent or empty template gives the default text; a non-empty template holding `{{otp}}` yields a text that shows the code; one without it is sent verbatim |
| OtpQueue.CustomTemplateRendering | backend/src/jobs/otp.queue.ts:65-67 | a template `pre + {{otp}} + post` with no `{` in `pre` renders as `pre`, the code, and the rendering of `post` |
| OtpQueue.TemplateWithoutPlaceholder | backend/src/jobs/otp.queue.ts:65-66 | a template without `{{otp}}` is sent verbatim |
| OtpQueue.OtpMessageHasNoPlaceholder | backend/src/jobs/otp.queue.ts:63-67 | no `{{otp}}` survives in a rendered custom template, and the default text contains the code |
| OtpQueue.OtpJobLogs | backend/src/jobs/otp.queue.ts:78-105 | the log after a run as written (both updates); the row count is kept |
| OtpQueue.IntendedOtpJobLogs | backend/src/jobs/otp.queue.ts:78-86 | the log after a run with the single outcome update; the row count is kept |
| OtpQueue.DeliveryMarksNewestPending | backend/src/jobs/otp.queue.ts:71-86 | a delivery changes exactly the newest pending row of (user, phone) to delivered with no reason, or nothing when there is none |
| OtpQueue.IntendedFailureMarksOneRow | backend/src/jobs/otp.queue.ts:72-86 | a failure changes only the newest pending row, to failed with the reason |
| OtpQueue.FailureMarksTwoRows | backend/src/jobs/otp.queue.ts:78-105 | as written, a failure with two pending rows marks both failed |
| OtpQueue.RecordOtpOutcome | backend/src/jobs/otp.queue.ts:71-90 | completes iff sent, else throws `WhatsApp session <id> not connected`. The log is `OtpJobLogs`, as written: on a failure the error handler's second update runs too |
| OtpQueue.ProcessOtpJob | backend/src/jobs/otp.queue.ts:45-108 | warm-up iff disconnected, with 1 to 8 polls under `PollStopped` and the restart's `SessionStarted` state; without one, no session, row or user changes. The outcome follows the façade's send of the rendered message to the default session; the log is `OtpJobLogs` of that outcome, as written |
| OtpQueue.DeliverOtp | backend/src/jobs/otp.queue.ts:63-105 | the outcome follows the façade's send of the rendered message; the log becomes `OtpJobLogs` of it; connections and users stay as they were |
| MessageQueue.MessageRetrySchedule | backend/src/jobs/message.queue.ts:22-27 | 3 attempts; retries after 3 s and 6 s |
| MessageQueue.MessageJobLogs | backend/src/jobs/message.queue.ts:66-94 | the log after a run as written (both updates); the row count is kept |
| MessageQueue.OtherRowsUntouched | backend/src/jobs/message.queue.ts:66-75 | a row for another user, phone or content, or one not pending, is never changed |
| MessageQueue.IntendedMessageJobLogs | backend/src/jobs/message.queue.ts:66-75 | the log after a run with the single outcome update |
| MessageQueue.IntendedMessageRunMarksOneRow | backend/src/jobs/message.queue.ts:63-75 | only the newest pending row with these user, phone and content is changed, to the outcome |
| MessageQueue.MessageFailureMarksTwoRows | backend/src/jobs/message.queue.ts:66-94 | as written, a failure with two identical pending messages marks both failed |
| MessageQueue.RecordMessageOutcome | backend/src/jobs/message.queue.ts:63-78 | completes iff sent, else throws the fixed reason. The log is `MessageJobLogs`, as written: on a failure the error handler's second update runs too |
| MessageQueue.ProcessMessageJob | backend/src/jobs/message.queue.ts:43-97 | warm-up iff disconnected, with 1 to 5 polls under `PollStopped` and the restart's `SessionStarted` state, start errors ignored; without one, no session, row or user changes. The outcome follows the façade's send; the log is `MessageJobLogs` of that outcome, as written |
| OtpService.Charset | backend/src/services/otp.service.ts:51-55 | a non-empty charset of digits and capitals; numeric is all digits, alpha all capitals |
| OtpService.CharsetSizes | backend/src/services/otp.service.ts:51-55 | 10, 36 and 26 characters |
| OtpService.OtpQuotaError | backend/src/services/otp.service.ts:31-45 | the monthly check comes first, then the daily one; both refuse at `>=`; none iff both are below the limits; on a new day only the monthly check can refuse |
| OtpService.MonthlyMessageNamesQuota | backend/src/services/otp.service.ts:40 | the monthly refusal contains `quota` |
| OtpService.DailyMessageNamesLimit | backend/src/services/otp.service.ts:44 | the daily refusal contains `limit` |
| OtpService.QuotaRefusalNamesQuotaOrLimit | backend/src/services/otp.service.ts:39-45 | every refusal contains `quota` or `limit` |
| OtpService.CountersAfterOtp | backend/src/services/otp.service.ts:71-80 | usage plus one. On a new day the daily OTP count becomes 1, the message count 0 and the reset day today; otherwise the daily count plus one. Nothing else changes |
| OtpService.BuildOtp | backend/src/services/otp.service.ts:57-60 | exactly `length` characters, the i-th being `charset[rand[i] % |charset|]` |
| OtpService.GeneratedCodeIsUpper | backend/src/services/otp.service.ts:51-63 | a generated code is its own upper-case form |
| OtpService.GenerateAndStoreOtp | backend/src/services/otp.service.ts:16-92 | a quota refusal writes nothing; a store failure leaves everything after it undone; otherwise the code has the effective length and charset, its upper-cased hash is stored under `otp:{userId}:{phone}` with the TTL, the counters follow `CountersAfterOtp`, and one pending row is appended |
| OtpService.VerifyExpiredOtp | backend/src/services/otp.service.ts:101-108 | after the stored code's TTL runs out, verification refuses every input and writes no log row ("expired or never sent") |
| OtpService.VerifyOtp | backend/src/services/otp.service.ts:97-124 | false with no stored code. True iff the upper-cased input hashes to the stored hash; then the code is deleted and the newest pending or delivered row becomes verified. A refusal changes nothing |
| OtpService.GeneratedCodeMatch | backend/src/services/otp.service.ts:110 | an input matches a generated code iff it upper-cases to it |
| OtpService.LowerCaseInputAccepted | backend/src/services/otp.service.ts:110 | `abcdef` verifies a code `ABCDEF` |
| OtpService.HexDigestInjective | backend/src/services/otp.service.ts:140-141 | different keys have different digests |
| OtpService.HashApiKey | backend/src/services/otp.service.ts:140-141 | the digest is a hex string, non-empty for a non-empty key |
| OtpService.RawKeyIsNoDigest | backend/src/services/otp.service.ts:130-135 | a generated raw key contains `_`, so it is never the digest of any key |
| OtpService.GenerateApiKey | backend/src/services/otp.service.ts:130-135 | `wk_` and a dash-free rest; the prefix is the first 12 characters; the hash is `hashApiKey` of the raw key |
| OtpService.HexHasNoDash | backend/src/services/otp.service.ts:131 | a hex group has no dash and removing dashes leaves it |
| OtpService.DropDash | backend/src/services/otp.service.ts:131 | removing dashes from `a-g` removes those of `a` and keeps the dash-free group `g` |
| OtpService.CanonicalUuidDigits | backend/src/services/otp.service.ts:131 | a canonical UUID without dashes is its five groups run together |
| OtpService.ApiKeyFromCanonicalUuid | backend/src/services/otp.service.ts:130-135 | for a canonical UUID the key is `wk_` and the five groups, 35 characters, and its prefix is `wk_`, the first group and one more digit |
| OtpController.ValidPhoneJid | backend/src/controllers/otp.controller.ts:13 | a valid phone's chat address is its 7 to 15 digits without the `+` |
| OtpController.ParseOtpType | backend/src/controllers/otp.controller.ts:16 | exactly the three type names are accepted |
| OtpController.OtpTypeNameRoundTrip | backend/src/controllers/otp.controller.ts:16 | parsing a type's name gives the type back |
| OtpController.ParseSend | backend/src/controllers/otp.controller.ts:12-19 | accepted iff the phone matches the pattern, the length is in [4, 12], the type is one of three and the TTL in [30, 3600]; the fields are kept |
| OtpController.IssuedCodesPassVerifySchema | backend/src/controllers/otp.controller.ts:12-24 | any code issued for a valid send request passes the verify schema with the same phone |
| OtpController.BearerToken | backend/src/controllers/otp.controller.ts:35-39 | the second space-separated word of the header, absent when missing or empty |
| OtpController.BearerTokenOfHeader | backend/src/controllers/otp.controller.ts:35 | the token of `Bearer <key>` is the key |
| OtpController.KeyMatchesForms | backend/src/controllers/otp.controller.ts:41-45 | a key matches iff it is active and its column is the token's digest or the token itself; an active key always matches its own column; for a column that is the digest of `orig`, only `orig` and the column itself match |
| OtpController.StoredDigestAuthenticates | backend/src/controllers/otp.controller.ts:41-45 | the stored digest works as a bearer token: `Bearer <HashApiKey(orig)>` resolves to a key when an active key is stored as that digest |
| OtpController.FindApiKey | backend/src/controllers/otp.controller.ts:35-49 | no key without a token; otherwise a key that matches the token, and none only when no key matches |
| OtpController.ErrorStatus | backend/src/controllers/otp.controller.ts:91-100 | 429 iff the message contains `quota` or `limit`, else 500 |
| OtpController.TestErrorStatus | backend/src/controllers/otp.controller.ts:202-207 | as written: 429 iff the message contains `limit`, else 500 |
| OtpController.TestErrorResponse | backend/src/controllers/otp.controller.ts:202-208 | as written: 429 with the message when it contains `limit`, else 500 with the generic text |
| OtpController.ErrorResponse | backend/src/controllers/otp.controller.ts:91-100 | the message itself for 429, the generic text otherwise |
| OtpController.QuotaRefusalIs429 | backend/src/controllers/otp.controller.ts:91-98 | every refusal of the generator is answered 429 |
| OtpController.MonthlyMessageShape | backend/src/services/otp.service.ts:40 | for any digits and a name without `l`, the monthly message has no `l` followed by `i` |
| OtpController.MonthlyMessageLacksLimit | backend/src/services/otp.service.ts:40 | the monthly refusal does not contain `limit` |
| OtpController.TestMonthlyQuotaIs500 | backend/src/controllers/otp.controller.ts:202-207 | as written, the test handler answers an exhausted monthly quota with 500 where the send handler answers 429 |
| OtpController.AcceptedOtpStaysWithinLimits | backend/src/controllers/otp.controller.ts:60-69 | after an accepted request the counters are still within the plan's limits |
| OtpController.SendOtpGate | backend/src/controllers/otp.controller.ts:32-58 | in order: schema 400, missing token 401, unknown or revoked key 401, a key whose owner is gone 500, a disconnected status 400; it proceeds exactly when none of these applies |
| OtpController.IssueOtp | backend/src/controllers/otp.controller.ts:60-78 | generation as `GenerateAndStoreOtp`; after it succeeds, a job with the same code is queued |
| OtpController.SendOtp | backend/src/controllers/otp.controller.ts:30-102 | the gate's refusal writes nothing, and neither does any answer but 200. A 200: the user's counters become `CountersAfterOtp`, one pending log row is appended, and the key's last use is recorded. Exactly one job is appended, carrying the key's owner and id, the phone, the custom message and a code of the requested length and charset (`IssuedCode`); the store maps the (owner, phone) key to the bcrypt of the code's upper case with the requested TTL and nothing else changes there. A generation error is mapped by `ErrorStatus` |
| OtpController.TestKey | backend/src/controllers/otp.controller.ts:157-167 | the named key when given, else the first key, and in both cases it must be the user's own and active |
| OtpController.TestOtpGate | backend/src/controllers/otp.controller.ts:153-174 | in order: schema 400, no valid key 400, disconnected 400 |
| OtpController.SendTestOtp | backend/src/controllers/otp.controller.ts:151-209 | as `SendOtp`, with the same counter, log, job (code length, charset and custom message) and store (hash and TTL) effects, but without recording the key's use. Errors are mapped as written by `TestErrorResponse`, so a monthly refusal answers 500 |
| OtpController.VerifyOtpHandler | backend/src/controllers/otp.controller.ts:108-145 | in order: schema 400, token/key 401, then 200 iff `VerifyOtp` accepts, else 400. A 200 removes exactly the owner's store key and marks the newest pending or delivered row of (owner, phone) verified; any other answer writes nothing |
| OtpController.VerifyTestOtp | backend/src/controllers/otp.controller.ts:215-236 | schema 400; then 200 iff `VerifyOtp` accepts for the signed-in user, else 400. A 200 removes exactly that store key and marks the newest pending or delivered row verified; any other answer writes nothing |
| MessageController.MessageQuotaError | backend/src/controllers/message.controller.ts:51-68 | the monthly limit (50000/250) is checked first, then the daily one (2000/30) as of today; both refuse at `>=`; none iff both are below |
| MessageController.CountersAfterMessage | backend/src/controllers/message.controller.ts:71-79 | monthly plus one. On a new day the daily message count becomes 1, the OTP count 0 and the reset day today; otherwise the daily count plus one |
| MessageController.AcceptedMessageStaysWithinLimits | backend/src/controllers/message.controller.ts:51-79 | after an accepted send the counters are within both limits |
| MessageController.StoredDigestRefused | backend/src/controllers/message.controller.ts:34-35 | unlike the OTP handlers' lookup, this handler's hashed-only lookup refuses a stored digest presented as the token |
| MessageController.SendMessageGate | backend/src/controllers/message.controller.ts:25-68 | in order: schema, token, a hashed-only active key, the session status, the quota; the first failing check gives its answer |
| MessageController.SendTransactionalMessage | backend/src/controllers/message.controller.ts:23-112 | a refusal writes nothing; otherwise counters, a pending log row, then a job for the requested session, then the key's last use |
| MessageController.GetMessageLogs | backend/src/controllers/message.controller.ts:118-145 | page 0 gives 500. Otherwise the page is exactly the rows from `(page-1)·limit` on, at most `limit` of them, of the user's matching rows sorted newest first (`Page` of `SortBy` of `Where`). Each row matches, in order, with the total and `ceil(total/limit)` pages |
| MessageController.PageOfMatching | backend/src/controllers/message.controller.ts:123-129 | every row on a page of the matching rows, newest first, matches the query, and the page is in newest-first order |
| WhatsAppController.ReplyTo | backend/src/controllers/whatsapp.controller.ts:32-47 | qr, connected and error notices settle the request; any other kind is ignored |
| WhatsAppController.FirstReply | backend/src/controllers/whatsapp.controller.ts:32-47 | none iff no notice settles; never the timeout |
| WhatsAppController.FirstReplyIsEarliest | backend/src/controllers/whatsapp.controller.ts:34-46 | the reply is that of the earliest settling notice |
| WhatsAppController.OnChannel | backend/src/controllers/whatsapp.controller.ts:32 | the notices on one channel are a subsequence of all publications |
| WhatsAppController.OnChannelAppend | backend/src/controllers/whatsapp.controller.ts:32 | one more publication adds its notice iff it is on the channel |
| WhatsAppController.FirstReplyAppend | backend/src/controllers/whatsapp.controller.ts:34-46 | a later notice matters only when nothing settled yet |
| WhatsAppController.PairingWait.constructor | backend/src/controllers/whatsapp.controller.ts:21-32 | subscribed, the timer armed, no reply |
| WhatsAppController.PairingWait.OnMessage | backend/src/controllers/whatsapp.controller.ts:32-47 | a settled request keeps its reply; otherwise the reply is `ReplyTo` of the notice |
| WhatsAppController.PairingWait.OnTimeout | backend/src/controllers/whatsapp.controller.ts:24-30 | 504 only if nothing settled the request |
| WhatsAppController.PairingWait.Deliver | backend/src/controllers/whatsapp.controller.ts:32-47 | after a stretch of publications the reply is the first settling notice on the channel |
| WhatsAppController.PairingWait.Await | backend/src/controllers/whatsapp.controller.ts:21-47 | the answer is the timeout iff no notice on the channel settled it, otherwise the first settling one; in both cases the wait ends unsubscribed |
| WhatsAppController.ChannelsDiffer | backend/src/controllers/whatsapp.controller.ts:21 | different sessions of a user listen on different channels |
| WhatsAppController.ConnectWhatsApp | backend/src/controllers/whatsapp.controller.ts:8-53 | waits on the requested session's channel, which is the started session's channel iff the default session was requested. A running default session leaves every store unchanged; otherwise the default session is started (`SessionStarted`: connecting phase, upserted row, user mirror, and the client iff setup succeeds) |
| WhatsAppController.DisconnectWhatsApp | backend/src/controllers/whatsapp.controller.ts:56-72 | stops the default session: its client, reconnect entry and that entry's timer removed, its credentials dropped, its row and the user disconnected. Answers with the requested session |
| WhatsAppController.SetUserStatusIdempotent | backend/src/controllers/whatsapp.controller.ts:63-65 | the handler's own user write repeats the façade's and changes nothing more |
| WhatsAppController.StatusReport | backend/src/controllers/whatsapp.controller.ts:74-89 | one entry per connection row of the user |
| WhatsAppController.ListingShowsDefaultSession | backend/src/controllers/whatsapp.controller.ts:80-83 | each row shows the default session's live status when there is one, else its own stored status |
| UserController.EndOfDay | backend/src/controllers/user.controller.ts:60-63 | the last millisecond of the day: not before `t`, on the same day, and the next instant starts a day |
| UserController.UpToEndOfDay | backend/src/controllers/user.controller.ts:56-65 | an instant is at most the widened end iff it falls on that day or earlier |
| UserController.BuildLogFilter | backend/src/controllers/user.controller.ts:44-65 | a status only when one is given and is not `all`; a phone when given; bounds only from the dates given; the filter admits exactly the requested rows |
| UserController.SortOf | backend/src/controllers/user.controller.ts:67-69 | direction −1 iff the order is absent or `desc`; the field defaults to `createdAt` |
| UserController.KeyName | backend/src/controllers/user.controller.ts:81-85 | the name of the row's key when it exists and has one, else `Dashboard` |
| UserController.WhereAgrees | backend/src/controllers/user.controller.ts:71-79 | two filters that agree on every row select the same rows |
| UserController.GetLogs | backend/src/controllers/user.controller.ts:23-98 | page 0 gives 500. Otherwise: the total of requested rows and `ceil(total/limit)` pages. Listed row `i` is the view (id, key name) of row `(page-1)·limit + i` of the requested rows in sort order, so the pages hold disjoint positions. Every listed row is requested and in the store, in sort order, and the page has the expected length |
| UserController.PageOfViews | backend/src/controllers/user.controller.ts:67-85 | the sorted window: view `i` is the view of sorted row `skip + i`; with its length, membership and order |
| UserController.GetMe | backend/src/controllers/user.controller.ts:7-21 | the allowance is the plan's monthly OTP limit |
| UserController.GetStats | backend/src/controllers/user.controller.ts:100-123 | delivered and verified counts and the count of the user's active keys, each a `Where` over the collection; `remaining = max(0, limit − usage)`; remaining positive iff usage is below the limit |
| UserController.ActiveKeysAfterAdd | backend/src/controllers/user.controller.ts:106 | a new key raises the active-key count by one exactly when it is the user's and active |
| UserController.DisjointCounts | backend/src/controllers/user.controller.ts:103-107 | delivered plus verified never exceeds the user's rows |
| UserController.NoRemainingMeansQuotaRefusal | backend/src/controllers/user.controller.ts:109-110 | no remaining allowance iff the OTP service refuses with the monthly message |
| UserController.DailyAndMonthlyMessagesDiffer | backend/src/services/otp.service.ts:38-44 | the two refusals are distinct messages |
| UserController.ProfileAgreesWithStats | backend/src/controllers/user.controller.ts:109-110 | the profile's allowance equals the statistics' plan limit, and remaining plus usage is the limit while some remains |
| AuthService.ProfileOf | backend/src/services/auth.service.ts:19-29 | refused iff the payload is missing or lacks a truthy sub, email or name; otherwise the profile carries them and the picture |
| AuthService.Refreshed | backend/src/services/auth.service.ts:69-70 | the name follows the profile; the avatar only when the profile has one; nothing else changes |
| AuthService.Linked | backend/src/services/auth.service.ts:47-49 | the Google id and the name are set; the avatar only when given; nothing else changes |
| AuthService.NewUser | backend/src/services/auth.service.ts:54-63 | the profile's fields, the free plan, no usage, disconnected |
| AuthService.FindOrCreateUser | backend/src/services/auth.service.ts:32-75 | a googleId match is refreshed and saved iff changed; else an email match is linked; else a new user is created under a fresh id; the unique indexes keep holding |
| AuthService.SecondSignInSavesNothing | backend/src/services/auth.service.ts:66-72 | signing in again with the same profile saves nothing |
| AuthService.SavedIffChanged | backend/src/services/auth.service.ts:68-71 | the refresh is saved exactly when it changes the record |
| AuthService.GetOtpLimit | backend/src/services/auth.service.ts:97-98 | the same allowance the OTP service enforces, positive |
| CopyField.Display | frontend/src/components/ui/CopyField.tsx:18-20 | empty for an empty value, the value unmasked, else the first 8 characters, the bullet 24 times and the last 4 |
| CopyField.CopyText | frontend/src/components/ui/CopyField.tsx:12-13 | the clipboard gets the unmasked value |
| CopyField.MaskHidesMiddle | frontend/src/components/ui/CopyField.tsx:12-20 | values agreeing on the head and tail are shown alike, while their copies differ |
| CopyField.MaskedDisplayLength | frontend/src/components/ui/CopyField.tsx:18-20 | a masked display shows at most 12 characters of the value |
| Db.Redis.Expire | backend/src/services/otp.service.ts:68 | the store's TTL running out: exactly that key is dropped from the OTP entries |
| Db.SetConnectionStatus | backend/src/services/whatsapp/ClientManager.ts:44-48 | `findOneAndUpdate({userId, sessionId}, {status}, {upsert})`: the key's row gets the status; a missing row is created only with upsert; other rows untouched |
| Db.SetUserStatus | backend/src/services/whatsapp/ClientManager.ts:52 | `findByIdAndUpdate`: only that user's status changes; no user, no effect |
| Db.MirrorStatus | backend/src/services/whatsapp/ClientManager.ts:50-55 | only the default session writes the status onto the user |
| Db.Newest | backend/src/jobs/otp.queue.ts:78-86 | `sort: {createdAt: -1}` picks a matching row with the largest `createdAt`; none iff nothing matches |
| Db.UpdateNewest | backend/src/jobs/otp.queue.ts:78-86 | exactly the newest matching row is updated |
| Db.UpdateNewestTouchesOneRow | backend/src/services/otp.service.ts:115-119 | every other row stays as it was |
| Db.FirstMatch | backend/src/controllers/otp.controller.ts:42-45 | `findOne`: the first matching row; none iff no row matches |
| Db.Where | backend/src/controllers/user.controller.ts:103-107 | `find`/`countDocuments`: every kept row matches and is a stored row, and every matching row is kept; order and multiplicity are fixed by `WhereAppend` and `WhereSingle` |
| Db.WhereAppend | backend/src/controllers/user.controller.ts:103-107 | filtering a concatenation filters each part in order, so rows keep their order and their number of occurrences |
| Db.WhereSingle | backend/src/controllers/user.controller.ts:103-107 | a single row is kept exactly when it matches |
| Db.WhereAll | backend/src/controllers/user.controller.ts:103-107 | when every row matches, the filter keeps all of them, in order |
| Db.Insert | backend/src/controllers/message.controller.ts:127 | inserting yields one more row, headed by the new row or by the old head |
| Db.InsertAdds | backend/src/controllers/message.controller.ts:127 | inserting adds exactly that row to the multiset of rows |
| Db.InsertSorted | backend/src/controllers/message.controller.ts:127 | inserting into a sorted sequence keeps it sorted |
| Db.SortBy | backend/src/controllers/message.controller.ts:127 | `sort`: sorted by the key and a permutation of the rows |
| Db.Page | backend/src/controllers/message.controller.ts:128-129 | `skip(skip).limit(limit)`: at most `limit` rows, each the row `skip + i` |
| Db.SortedPage | backend/src/controllers/message.controller.ts:127-129 | a page of the sorted rows holds only input rows, still in key order |
| Db.TotalPages | backend/src/controllers/message.controller.ts:139 | `ceil(total/limit)`: the pages cover the total and the last page is non-empty |
| Db.RowOnItsPage | backend/src/controllers/message.controller.ts:127-139 | every row appears on page `i/limit + 1` at position `i % limit`, within the page count |
| Text.DigitsOnly | backend/src/services/whatsapp/ClientManager.ts:204 | `replace(/\D/g, '')`: only digits remain, and the result is no longer than the input |
| Text.DigitsOnlyDropsNonDigit | backend/src/services/whatsapp/ClientManager.ts:204 | a character that is not a digit is removed; with `DigitsOnlyOfDigits` and `DigitsOnlyAppend` this fixes the result on every string |
| Text.DigitsOnlyAppend | backend/src/services/whatsapp/ClientManager.ts:204 | taking the digits of two joined strings is joining their digits |
| Text.Upper | backend/src/services/otp.service.ts:110 | `toUpperCase` on ASCII letters: the same length, each ASCII letter upper-cased and every other character kept (see "Left out") |
| Text.UpperIdempotent | backend/src/services/otp.service.ts:110 | upper-casing twice is upper-casing once |
| Text.ReplaceAll | backend/src/jobs/otp.queue.ts:66 | a global literal replace: a replacement as long as the pattern keeps the length, and replacing the pattern by itself changes nothing |
| Text.ReplaceAllSplice | backend/src/jobs/otp.queue.ts:66 | the text before the first possible start of the pattern is kept, the occurrence becomes the replacement, and the rest is replaced the same way |
| Text.ReplaceAllAtPattern | backend/src/jobs/otp.queue.ts:66 | a text starting with the pattern starts with the replacement, followed by the replaced rest |
| Text.ReplaceAllPastChar | backend/src/jobs/otp.queue.ts:66 | a leading character that cannot start the pattern is kept |
| Text.ReplaceAllShowsReplacement | backend/src/jobs/otp.queue.ts:66 | where the pattern occurs, the replacement occurs in the result |
| Text.ReplaceAllAbsent | backend/src/jobs/otp.queue.ts:66 | replacing an absent pattern changes nothing |
| Text.ReplaceAllRemovesPattern | backend/src/jobs/otp.queue.ts:66 | after replacement with a text free of the pattern's characters, the pattern no longer occurs |
| Text.RemoveChar | backend/src/services/otp.service.ts:131 | `replace(/-/g, '')`: the character is gone |
| Text.SliceFront | frontend/src/components/ui/CopyField.tsx:19 | `slice(0, n)`: a prefix of `min(n, length)` characters |
| Text.SliceBack | frontend/src/components/ui/CopyField.tsx:19 | `slice(-n)`: the last `min(n, length)` characters |
| Text.Split | backend/src/services/whatsapp/ClientManager.ts:94 | `split(':')` pieces contain no separator |

## Left out

- Transport: `makeWASocket`, `fetchLatestBaileysVersion`, `sock.sendMessage`, `sock.logout` and `sock.user` are part of the WhatsApp library and are not modelled. Sockets are tokens and events are method calls. Whether the transport accepts a message is a parameter. A logout's own close event is a separate `OnConnectionUpdate` call.
- Disconnect reason constants: the library's `loggedOut` and `forbidden` are taken to be 401 and 403.
- Time: delays are recorded with the timer tokens (reconnect 5/10 s, watchdog 120 s) or counted as steps (3 s grace, 2 s pause, 1 s polls, 30 s pairing timeout). Nothing runs on a clock. The expiry of an OTP entry after its TTL (`setEx`) is the event `Db.Redis.Expire`, called by the caller; the TTL is recorded but not counted down.
- Concurrency: every handler, callback, job and request is atomic. Statuses read after a wait are parameters, not interleavings.
- Redis, BullMQ and MongoDB are in-memory maps and sequences. BullMQ's scheduling, job retention and concurrency are recorded as constants only.
- Enqueue and database failures beyond the OTP store and the credential store's read and write errors are not modelled.
- `$inc`/`$set` path conflicts in the counter updates of `generateAndStoreOtp` and `sendTransactionalMessage` are not modelled; the intended field values are.
- Mongoose strict mode is not modelled. It would strip fields a schema does not declare: `sessionId` from credential records, and the daily counters from users.
- bcrypt, SHA-256, `crypto.randomInt`, uuid, JWT (`generateTokens`, `verifyRefreshToken`) and Google's token signature check are not modelled. They are injective stand-ins, the draw `rand[i] % n`, or parameters.
- The buffer-aware JSON replacer and reviver are taken to be exact inverses.
- Days are UTC days of an instant (`EndOfDay`). The server's local time zone and the parsing of date strings are not modelled. `toDateString` comparison is a comparison of abstract day numbers.
- Query strings are taken to be parsed into naturals already; non-numeric or negative `page`/`limit` values are not modelled. Zod's fractional numbers are not modelled: the schemas' numbers are naturals.
- Phone fragments in log queries are matched as plain substrings. Regular-expression metacharacters and case are not modelled.
- Populated references are key lookups, and ObjectIds are row indexes or strings.
- OtpService.HashApiKey: the stand-in digest has six hex digits per character rather than a fixed 64, and the empty key's digest is empty. Its one property the lookups rely on, that different keys give different digests, is the one assumed of SHA-256.
- Db.Newest: among matching rows with the same `createdAt`, the model picks the one inserted last. MongoDB does not specify which of them `findOneAndUpdate` with `sort: {createdAt: -1}` picks, so `UpdateNewest` and the workers and verification built on it fix one of the allowed choices.
- Db.SortBy: equal keys keep their collection order (a stable sort). MongoDB does not promise any order among them, so `MessageController.GetMessageLogs` and `UserController.GetLogs` pin one of the orders it allows for rows created at the same instant.
- UserController.GetLogs: for a `sortBy` other than `createdAt` the order of that field is the `otherRank` parameter, and ties keep no particular order; the model does not state Mongo's ordering of other field types.
- UserController.GetMe: the `usageResetAt` and `createdAt` fields of the reply are not modelled.
- The HTTP stack (routing, middleware, app setup) is not part of this model; the `/message` routes are not mounted in `app.ts`.
- The API-key CRUD controller is not part of this model.
- Frontend: every page and component except `CopyField` is left out. `UsageBar` is left out because it uses floating-point division. `CopyField`'s `copied` flag is UI state.
- Text.Upper: only ASCII letters are upper-cased. JavaScript's `toUpperCase` follows the full Unicode case mapping, where `ß` becomes `SS`, `ſ` becomes `S`, `ı` becomes `I` and `ﬁ` becomes `FI`, not always keeping the length. So `VerifyOtp` rejects inputs containing such characters that the source accepts; for the stored code `ABCDSS`, the input `abcdß` is one. Generated codes are ASCII capitals and digits, so upper-casing a generated code is exact; only the inputs differ.
- WhatsAppClients.ClientManager.SendMessage: with no client the loop still makes three attempts with two pauses before it throws; it does not fail at once. The model follows the code.

## Findings

The operational members follow the code as written. `RecordOtpOutcome`, `ProcessOtpJob`, `RecordMessageOutcome` and `ProcessMessageJob` log with the double update, and `SendTestOtp` uses the `limit`-only mapping. Each corrected definition is stated beside them with its intended property proved.

| source | as written | input that shows it | evidently intended | confidence | as-written member | corrected member |
|---|---|---|---|---|---|---|
| backend/src/jobs/otp.queue.ts:78-105 | after a failed send the worker marks the newest pending row failed, throws, and its catch marks the newest row that is still pending failed again | two pending rows for the same user and phone, send fails: both become failed | one run records its outcome on one row; the catch is meant to fire only when the first update did not happen ("if it hasn't been updated") | not executed | OtpQueue.OtpJobLogs, OtpQueue.FailureMarksTwoRows | OtpQueue.IntendedOtpJobLogs, OtpQueue.IntendedFailureMarksOneRow |
| backend/src/jobs/message.queue.ts:66-94 | the same double update in the message worker | two identical pending messages to one phone, send fails: both become failed | one row per run | not executed | MessageQueue.MessageJobLogs, MessageQueue.MessageFailureMarksTwoRows | MessageQueue.IntendedMessageJobLogs, MessageQueue.IntendedMessageRunMarksOneRow |
| backend/src/controllers/otp.controller.ts:202-207 | `sendTestOtp` maps only messages containing `limit` to 429 | a user on the free plan with 100 OTPs this month: the refusal `Monthly OTP quota exceeded (100 for free plan)` is answered 500 | 429 for a quota refusal, as `sendOtp` does (lines 91-98) | not executed | OtpController.TestErrorStatus, OtpController.TestMonthlyQuotaIs500 | OtpController.ErrorStatus, OtpController.QuotaRefusalIs429 |
