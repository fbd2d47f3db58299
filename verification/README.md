# Verified model of the TBOX diagnostic service

A Dafny model of the on-board UDS server: seed/key security access with lockout, diagnostic
sessions with a single owner and the S3 timeout, the service dispatcher in front of the SEC and
PROV services, the UDS codec, DoIP framing and the receive loop, and the reconnecting adapters
to both services. `dafny verify dfyconfig.toml` checks everything.

## How it is built

Every component that the source updates in place is a class whose methods follow the source
statement by statement. Each method is proved against a function of the old state (`...Spec`),
and records what it does in an `EventLog`: seeds granted, keys verified or failed, session
switches, S3 checks, calls to SEC and PROV.

| file | content |
|---|---|
| `diag_types.dfy` | integers, constants, requests, the answers of SEC, PROV and the clock |
| `event_trace.dfy` | events, the security history and session view of a trace, and `Disciplined`: which event may follow which history |
| `trace_theorems.dfy` | what every disciplined trace guarantees |
| `security_access.dfy`, `security_runs.dfy` | seed/key, counter and lockout; all runs of that interface |
| `session_manager.dfy` | session type, owner, S3 |
| `uds_codec.dfy` | decode and encode |
| `service_dispatcher.dfy` | handlers, gates, routing table |
| `doip_adapter.dfy` | frames, the receive loop, streams of frames |
| `diag_service.dfy` | the service as a whole |
| `service_runs.dfy`, `service_theorems.dfy` | all runs of the service; results over them |
| `conversation.dfy` | all frames written in a DoIP conversation; a VIN from the wire to PROV |
| `answers.dfy` | what every request is answered, by cause, from every reachable state; start and shutdown |
| `wire_format.dfy` | acknowledgements, activation responses and replies byte by byte |
| `wire_ownership.dfy` | who owns a session when testers come over DoIP |
| `reconnect.dfy`, `sec_ipc_adapter.dfy`, `real_prov.dfy` | throttled reconnecting and the two adapters |
| `security_over_sec.dfy` | security access on the SEC adapter, whose connection drops: refinement of the interface, and when the client is called |
| `reconnect_threads.dfy` | the same throttle under any interleaving of threads |

The argument has two halves. Runs: every step of every run keeps component state and trace in
agreement and the trace disciplined (`EveryRun`, once for the security interface alone and once
for the whole service). Traces: from discipline alone follow the results on privileged calls,
failure rate, keepalive chains and ownership. `answers.dfy` and `wire_format.dfy` complete this
with the replies: their statements name bytes, the trace, and the answers of SEC and PROV.

Time is counted in nanoseconds of the steady clock. Every clock reading of the source is a
separate reading here; they only have to be in order. S3 compares whole milliseconds, so a
session lives up to 5000.999999 ms after its last refresh. The attempt counter is a 32-bit
counter and wraps.

## Results that need a condition

* "At least (n-3) lockouts pass between the third and the n-th failed key of a streak" holds of
  all runs exactly when n <= 2^32 (`SimpleRateExact`). When the counter wraps, three further
  failures are not delayed. `FailureRate` is the bound for every n, and `HammerRuns` meets it.
* "Parsing a frame gives back what was framed" holds exactly when the payload is shorter than
  2^32 bytes (`FrameRoundTrip`). For declared lengths from 2^32-8 on, the sum 8 + length wraps in
  the source and an incomplete frame is not rejected (`ParseComplete`).
* "A receive consumes one frame" holds exactly for routing and diagnostic frames of at most 4096
  bytes and for frames without payload (`ConsumedWhole`); other payloads stay in the stream.
* "Unforced connection attempts are 500 ms apart" holds for the times the throttle stamps on
  them (`AttemptsAreThrottled`). For the calls to `connect` it holds exactly when the earlier call
  was not late on its own stamp (`CallsApartExact`): after a call that was late by `delay`, the
  gaps that happen are exactly those with `delay + gap >= 500 ms` (`CallGaps`).
* "A reply is the request's positive reply or its refusal" holds of `process_request` exactly when
  the service is initialized or the request asks for service 0 (`EndToEndEcho`): before
  initialization service 0 is refused, whatever was asked. Over DoIP there is then no reply.
* "A tester cannot take another tester's session" holds of direct requests
  (`OtherTestersCannotTouch`). A DoIP request never gets its sender's address and asks as tester 0.
  A session asked for over DoIP is therefore given exactly when, after the S3 check, the session is
  default or its owner is 0 (`PolledSwitch`). A session of another owner is safe from all polls
  until it times out (`PollsCannotTouch`); a session of owner 0 can be switched from any source
  address (`OwnerZeroIsShared`), and when all requests come over DoIP, all sessions are
  (`WireOwner`, `WireNeverRefuses`).
* "A failed key is one that SEC rejected" does not hold: a connection lost between the availability
  test and `verify_key` counts as a failed key, exactly in the case of `UnheardExactly`, and three
  such keys lock the level out (`LockedOutUnheard`).
* "Every poll writes one exchange" holds exactly of polls that find a whole receivable message; all
  others write nothing (`EveryConversation`).
* Decoding loses information for session control, tester present and data reads, and for
  services the server does not know when they carry no sub-function (`DecodeKernel`, `DecodeLosses`).

## Where the documentation says something else

The repository's README describes one certificate routine 0xFF01 that runs the whole flow in the
extended session. The code has three routines, 0xFF01 to 0xFF03, each allowed only in the
programming session. The model follows the code. It also promises one tester per session; over DoIP
the code keeps that promise only as far as the last item above says. The code never relocks
security on a session change or an S3 timeout, and nothing here claims it.

## Model

| member | source | states |
|---|---|---|
| Security.SecurityAccess.RequestSeed | src/security_access.cpp:12-38 | a seed request grants, refuses or reports SEC unavailable in the source's order, relocks the level on a grant, and records the grant |
| Security.SecurityAccess.SendKey | src/security_access.cpp:40-108 | a key is looked up under the level below, needs a pending seed, counts a failure modulo 2^32 and locks out from the third on, or unlocks and clears the count |
| Security.SecurityAccess.IsUnlocked | src/security_access.cpp:110-154 | reads the unlocked flag of the normalised level, false for a missing entry |
| Security.SecurityAccess.IsLockedOut | src/security_access.cpp:179-191 | locked out exactly when the count is at the limit and the lockout time has not come |
| Security.SecurityAccess.Lock | src/security_access.cpp:156-163 | clears unlocked flag and pending seed of an existing entry and nothing else |
| Security.SecurityAccess.Reset | src/security_access.cpp:165-168 | forgets every level |
| Security.RequestSeedReflects | src/security_access.cpp:30-37 | a seed request keeps every entry equal to what the history of its level says, and the trace disciplined |
| Security.SendKeyReflects | src/security_access.cpp:57-95 | so does a key, including failures that were checked after the previous lockout |
| Security.FailureReflects | src/security_access.cpp:64-73 | a failure that was not locked out keeps the spacing of its streak, across the wrap of the counter |
| SecurityRuns.EveryRun | src/security_access.cpp:12-168 | in every run on any levels, entries agree with the history and the trace is disciplined |
| SecurityRuns.UnlockedMeansVerifiedLast | src/security_access.cpp:110-154 | a level is unlocked exactly when its last security event is an accepted key; then no seed is pending and the count is zero |
| SecurityRuns.OneSeedOneVerification | src/security_access.cpp:57-67 | verifications plus a pending seed never exceed the seeds granted |
| SecurityRuns.Recovery | src/security_access.cpp:20-37 | from every reachable state a grantable seed is refused exactly within 10 s of the last failure at the limit; a granted seed and an accepted key unlock |
| SecurityRuns.SeedAnswer | src/security_access.cpp:12-38 | after every run, on any level: granted, denied and unavailable each exactly by its cause, with the pending seed a grant leaves behind |
| SecurityRuns.KeyAnswer | src/security_access.cpp:40-108 | after every run, on any level: success exactly for a key that is put to SEC and accepted; a rejected key is denied, counted and at the limit starts a lockout; no other entry changes |
| SecurityRuns.LockoutIsBounded | src/security_access.cpp:71-72 | no level is locked out 10 s after the present reading of the clock, whatever was refused meanwhile |
| SecurityRuns.FailureRate | src/security_access.cpp:52-73 | between any two failures of a streak passes one lockout per failure made at the limit |
| SecurityRuns.NoEarlyWrap | src/security_access.cpp:65-73 | the counter is the length of the streak, or 2^32-3 lockouts have passed between the third and the 2^32-th failure of the streak |
| SecurityRuns.HammerRuns | src/security_access.cpp:52-73 | for every n a run with n failures that takes no longer than the bound |
| SecurityRuns.SimpleRateExact | src/security_access.cpp:64-73 | the bound of (n-3) lockouts holds of all runs if and only if n <= 2^32 |
| TraceTheorems.StreakSpan | src/security_access.cpp:70-73 | the rate bound for any spaced streak of failures |
| TraceTheorems.VerifiedHasCause | src/security_access.cpp:57-95 | a verified level was verified by one accepted key after one granted seed, with no event of the level between or since |
| TraceTheorems.ChainOf | src/session_manager.cpp:55-96 | a non-default session carries an unbroken chain of refreshes by its owner |
| TraceTheorems.ChainMeansSession | src/session_manager.cpp:55-96 | the converse: whoever has such a chain owns the session, and it is not default |
| TraceTheorems.HandOver | src/session_manager.cpp:37-60 | two owners of non-default sessions are separated by a default session |
| TraceTheorems.PrivilegedCallIsEarned | src/service_dispatcher.cpp:201-241 | the cause of every privileged call lies before it in the trace |
| Sessions.SessionManager.SwitchSession | src/session_manager.cpp:16-80 | refuses other testers of a non-default session and unknown types, else takes over all session fields |
| Sessions.SessionManager.HandleTesterPresent | src/session_manager.cpp:82-96 | only the owner of an active session refreshes it |
| Sessions.SessionManager.CheckS3Timeout | src/session_manager.cpp:121-155 | a non-default session idle for more than 5000 whole ms becomes default and keeps its owner |
| Sessions.SessionManager.Release | src/session_manager.cpp:103-109 | default, idle, no owner |
| Sessions.SessionManager.ResetToDefault | src/session_manager.cpp:157-163 | default, active, refreshed |
| Sessions.CheckS3Agrees | src/session_manager.cpp:121-155 | after the check a non-default session was refreshed at most S3 ago and the trace says so last |
| Sessions.SwitchAgrees | src/session_manager.cpp:37-60 | a switch right after the check keeps session and trace in agreement and is allowed by it |
| Sessions.DefaultAgrees | src/session_manager.cpp:157-163 | so does a reset to the default session |
| Codec.Decode | src/uds_codec.cpp:12-81 | fails exactly on messages shorter than the service's minimum; else sets exactly the fields the message carries |
| Codec.Encode | src/uds_codec.cpp:83-101 | builds the response bytes; a positive data read has no sub-function |
| Codec.DecodableExactly | src/uds_codec.cpp:12-81 | which messages decode, by first byte and length |
| Codec.RebuildInvertsDecode | src/uds_codec.cpp:17-80 | the decoded request gives back the message up to what decoding drops |
| Codec.DecodeKernel | src/uds_codec.cpp:17-80 | two messages decode alike if and only if they agree on what decoding keeps |
| Codec.DecodeLosses | src/uds_codec.cpp:19-78 | appended bytes are invisible exactly for 0x10, 0x3E and 0x22, and for one zero after a bare unknown service |
| Doip.DoIpAdapter.BuildFrame | src/doip_adapter.cpp:391-405 | the frame byte by byte, length modulo 2^32 |
| Doip.DoIpAdapter.ParseFrame | src/doip_adapter.cpp:407-419 | parsing with the 32-bit sum of the source |
| Doip.DoIpAdapter.Receive | src/doip_adapter.cpp:199-299 | what one receive consumes, writes, remembers and returns, in every branch |
| Doip.DoIpAdapter.Send | src/doip_adapter.cpp:180-197 | one diagnostic frame from the local to the remote address, if connected |
| Doip.DoIpAdapter.Disconnect | src/doip_adapter.cpp:158-173 | closes the link and changes nothing else |
| Doip.FrameHeader | src/doip_adapter.cpp:391-404 | type and length can be read back from any framed payload, whatever follows |
| Doip.FrameRoundTrip | src/doip_adapter.cpp:391-419 | parse after build is the identity, with any tail, if and only if the payload is shorter than 2^32 |
| Doip.ParseComplete | src/doip_adapter.cpp:410-418 | below 2^32-8 parsing succeeds exactly on complete frames; the overrun case is characterised exactly |
| Doip.StreamFraming | src/doip_adapter.cpp:216-299 | on any concatenation of receivable frames the k-th receive consumes the k-th frame and returns its UDS data |
| Doip.ConsumedWhole | src/doip_adapter.cpp:229-266 | exactly which frames a receive consumes as a whole |
| Dispatch.ServiceDispatcher.RegisterRoute | src/service_dispatcher.cpp:16-24 | appends one entry |
| Dispatch.ServiceDispatcher.CheckSecurityRequired | src/service_dispatcher.cpp:582-589 | the unlock requirement of the first matching entry, false if there is none |
| Dispatch.FindRouteIsFirst | src/service_dispatcher.cpp:583-587 | the search finds an entry if one matches, and the first one |
| Dispatch.ServiceDispatcher.Dispatch | src/service_dispatcher.cpp:26-78 | routes by service; unknown services are refused with 0x11 |
| Dispatch.ServiceDispatcher.HandleSessionControl | src/service_dispatcher.cpp:80-118 | masks bit 7, switches, maps errors, answers with the timing parameters |
| Dispatch.ServiceDispatcher.HandleTesterPresent | src/service_dispatcher.cpp:120-130 | refreshes or refuses with 0x22 |
| Dispatch.ServiceDispatcher.HandleSecurityAccess | src/service_dispatcher.cpp:132-183 | only level 1; distinguishes unavailable SEC, refused seed and invalid key |
| Dispatch.ServiceDispatcher.HandleRoutineControl | src/service_dispatcher.cpp:185-233 | certificate routines need the programming session before anything else |
| Dispatch.ServiceDispatcher.HandleProvRoutine | src/service_dispatcher.cpp:235-287 | unlock, availability, identifier and length checks before one VIN write of 17 bytes and the rest |
| Dispatch.ServiceDispatcher.HandleGenerateKeyPair | src/service_dispatcher.cpp:289-329 | unlock and availability before one call |
| Dispatch.ServiceDispatcher.HandleReadCsr | src/service_dispatcher.cpp:331-388 | the CSR follows the identifier in the reply |
| Dispatch.ServiceDispatcher.HandleInjectCertificate | src/service_dispatcher.cpp:390-478 | an empty certificate never reaches SEC; failures map to four codes |
| Dispatch.ServiceDispatcher.HandleReadData | src/service_dispatcher.cpp:480-558 | two identifiers, no security gate, one read |
| Dispatch.GatesRefineTable | src/service_dispatcher.cpp:185-287 | whatever a routine or a read calls, the default table names that downstream, and its unlock requirement is met and is exactly that of the call |
| Dispatch.DefaultRoute | src/diag_service.cpp:79-93 | what the linear search finds in the default table, for every service and identifier |
| Dispatch.RejectionsChangeNothing | src/service_dispatcher.cpp:80-183 | a negative reply leaves the session alone, and every security entry alone if and only if no key failed at SEC |
| Dispatch.QueriesReadEntries | src/security_access.cpp:129-142 | an inserted default entry cannot be told from a missing one by any query |
| DiagServer.DiagService.Initialize | src/diag_service.cpp:25-77 | which components are replaced in every failing and succeeding case |
| DiagServer.DiagService.RegisterDefaultRoutes | src/diag_service.cpp:79-93 | the six default routes in order |
| DiagServer.DiagService.ProcessRequest | src/diag_service.cpp:95-109 | the S3 check precedes every dispatch; before initialization nothing happens |
| DiagServer.DiagService.ProcessPendingRequests | src/diag_service.cpp:111-193 | check, connect or receive, decode, dispatch, reply |
| DiagServer.DiagService.Shutdown | src/diag_service.cpp:195-208 | disconnects, releases the session, forgets security |
| DiagServer.DiagService.SetSec | src/diag_service.cpp:233-243 | a new SEC interface starts locked and gets a fresh table |
| ServiceRuns.EveryRun | src/diag_service.cpp:95-208 | in every run of the service state and trace agree, the trace is disciplined, and only level 1 has an entry |
| ServiceRuns.StepSound | src/diag_service.cpp:95-208 | every single step keeps that |
| ServiceRuns.DispatchSound | src/service_dispatcher.cpp:35-56 | every handler keeps that after the S3 check of its request |
| ServiceTheorems.PrivilegedCalls | src/service_dispatcher.cpp:201-431 | in every run each key generation, CSR, injection and VIN write follows a granted level-1 seed and an accepted key with nothing about level 1 since; certificate calls also follow a standing switch to programming |
| ServiceTheorems.UnlockedMeansVerified | src/service_dispatcher.cpp:133-183 | in every run level 1 is unlocked exactly when its last event is an accepted key, and no other level has an entry |
| ServiceTheorems.ServiceFailureRate | src/security_access.cpp:52-73 | the failure rate bound over whole runs of the service |
| ServiceTheorems.SecurityIsAvailable | src/service_dispatcher.cpp:132-183 | from every reachable state a grantable level-1 seed is refused, with 0x33, if and only if the failures lock the level out; a granted seed and an accepted key are answered positively and unlock |
| ServiceTheorems.KeptAlive | src/session_manager.cpp:121-155 | a session is not default after an S3 check if and only if its owner has a chain of refreshes, each within S3 of the one before, the last within S3 of now |
| ServiceTheorems.OwnersHandOverThroughDefault | src/session_manager.cpp:37-42 | between non-default sessions of different owners the session was default |
| ServiceTheorems.OtherTestersCannotTouch | src/session_manager.cpp:37-94 | unless it timed out, a session is untouched by any direct request of another tester |
| ServiceTheorems.SessionIsAvailable | src/session_manager.cpp:37-42 | from every reachable state a valid session request is accepted if and only if the session is default, its owner asks, or it has been idle for more than 5000 whole ms; then the requester owns it |
| ServiceTheorems.DispatchEcho | src/uds_codec.cpp:83-101 | every decodable message is answered by the refusal of its service with a nonzero code or by its positive reply echoing the request; the first byte tells which |
| ServiceTheorems.EndToEndEcho | src/diag_service.cpp:95-109 | `process_request` answers so if and only if the service is initialized or service 0 is asked for |
| ServiceTheorems.RoutineEcho | src/service_dispatcher.cpp:275-287 | a routine reply echoes sub-function and identifier or is a refusal with a nonzero code |
| Answers.SessionAnswer | src/service_dispatcher.cpp:80-118 | from every reachable state and for every 0x10 request, known type or not: the reply bytes by cause, and the whole session afterwards |
| Answers.PresenceAnswer | src/session_manager.cpp:82-96 | from every reachable state: 0x3E is accepted if and only if the session is active and the requester owns it; then the last refresh is that clock reading and nothing else changes; else 0x22 and no change |
| Answers.SessionOutlivesOthers | src/session_manager.cpp:37-96 | a session outlives any inputs of others that end within S3 of its last refresh |
| Answers.RefreshKeepsSession | src/session_manager.cpp:94-136 | a tester answered 7E at t has the same session after any S3 check within 5000 whole ms of t, whatever others do in between |
| Answers.SecurityAnswer | src/service_dispatcher.cpp:132-183 | from every reachable state and for every 0x27 request: the reply bytes by cause, the history of level 1 afterwards, and that exactly an answered key unlocks it |
| Answers.RoutineAnswer | src/service_dispatcher.cpp:185-478 | from every reachable state and for every 0x31 request: which call is made with which arguments, success if and only if its service reported it, the data it reported, and the code of each refusal |
| Answers.ReadAnswer | src/service_dispatcher.cpp:480-558 | for every 0x22 request: the VIN for F190, the binding state for F191, and the code of each refusal |
| Answers.UnknownServiceAnswer | src/service_dispatcher.cpp:26-78 | every other service is refused with 0x11 and changes nothing after the S3 check |
| Answers.CertificateReachesSec | src/sec_ipc_adapter.cpp:276-344 | from the tester to the SEC client and back: one call, and the reply by the code the client returns |
| Answers.StartAnswer | src/diag_service.cpp:25-77 | a start succeeds if and only if nothing is missing, its code names the first thing missing, and a fresh start forgets session and security |
| Answers.ShutdownAnswer | src/diag_service.cpp:195-208 | a service shut down holds nothing, has closed its link, and refuses every request until started again |
| Answers.ServicesSet | src/diag_service.cpp:228-243 | the services set last decide about the next start; a new SEC locks every level at once |
| Conversation.PollMessage | src/diag_service.cpp:129-174 | one poll on one message: consumed, prompted, answered |
| Conversation.PollIsRequest | src/diag_service.cpp:129-174 | a polled message does exactly what a direct request of tester 0 does, and the encoded response of that is what is sent |
| Conversation.QuietPollChecks | src/diag_service.cpp:118-149 | a poll that serves no request still ends a session idle for 5001 ms and changes nothing else |
| Conversation.LastSender | src/doip_adapter.cpp:274-299 | replies go to the sender of the last diagnostic message that carries more than its addresses |
| Conversation.EveryConversation | src/diag_service.cpp:111-174 | for every stream, any idle polls and any reconnections: the frames written are those of the polls in order, and each poll writes the exchange of the whole message it consumes, or nothing; what is left in the stream is exact in every case |
| Conversation.FirstMessageExactly | src/doip_adapter.cpp:216-299 | a receive finds a message if and only if the stream starts with a whole receivable frame |
| Conversation.WholeConversation | src/diag_service.cpp:129-174 | for every list of messages and any idle polls in between: exactly one acknowledgement per message with more than its addresses, then one reply iff it decodes, from the local address to its sender, in order |
| Conversation.VinArrives | src/service_dispatcher.cpp:249-268 | a framed write-VIN request leads to one downstream call with exactly its VIN and extra bytes |
| WireFormat.ExchangeOnWire | src/doip_adapter.cpp:199-299 | the frames of every exchange byte by byte: activation response, acknowledgement, and the reply from this server to the sender |
| WireFormat.AnswerOnWire | src/diag_service.cpp:129-174 | from the wire to the wire: the acknowledgement, then the encoded answer of `process_request`, addressed to the sender |
| WireFormat.SendOnWire | src/doip_adapter.cpp:180-197 | header, local address, remote address and data, if and only if the link is up |
| WireFormat.AckOnWire | src/doip_adapter.cpp:274-299 | the acknowledgement byte by byte |
| WireFormat.ActivationOnWire | src/doip_adapter.cpp:238-266 | the 13 bytes of the activation response behind its header |
| Conversation.VinReachesProv | src/real_prov.cpp:14-77 | from the wire to the PROV client and back to the tester's reply, also when the connection is lost after the availability test |
| WireOwnership.WireSwitch | src/session_manager.cpp:37-42 | a polled session request is answered positively if and only if the session is default or its owner is 0 |
| WireOwnership.PolledSwitch | src/diag_service.cpp:134-174 | from every reachable state: when a framed session request switches the session, what the session becomes, and which frames the sender reads |
| WireOwnership.OwnerZeroIsShared | src/diag_service.cpp:134-137 | an ongoing session of owner 0 is switched by a framed request from any source address |
| WireOwnership.PollsCannotTouch | src/session_manager.cpp:37-94 | unless it timed out, a session whose owner is not 0 is untouched by any poll |
| WireOwnership.WireOwner | src/diag_service.cpp:134-137 | without direct requests the owner is 0 in every run |
| WireOwnership.WireNeverRefuses | src/diag_service.cpp:134-174 | in such runs every message asking for a session gets it, whatever session stands |
| Reconnect.Connector.EnsureConnected | src/sec_ipc_adapter.cpp:114-155 | connects only if disconnected and not within 500 ms of the last attempt |
| Reconnect.Connector.ForceReconnect | src/real_prov.cpp:194-203 | attempts at once and restarts the interval |
| SecIpc.SecIpcAdapter.GetSeed | src/sec_ipc_adapter.cpp:12-71 | a seed request that meets a stale connection is repeated once |
| SecIpc.SecIpcAdapter.VerifyKey | src/sec_ipc_adapter.cpp:73-112 | a key is sent at most once |
| SecIpc.SecIpcAdapter.InjectCertificate | src/sec_ipc_adapter.cpp:276-344 | the failure is the mapped SEC code, or unavailable |
| SecurityOverSec.SecurityOnAdapter.RequestSeed | src/security_access.cpp:12-38 | a seed request calling the adapter: the availability test, the lockout test, a connection that may change before `get_seed`, the client calls and the entry |
| SecurityOverSec.SecurityOnAdapter.SendKey | src/security_access.cpp:40-108 | the same for a key; a connection lost before `verify_key` counts as a failed key |
| SecurityOverSec.SecurityOnAdapter.Lock | src/security_access.cpp:156-163 | locks without the client |
| SecurityOverSec.SecurityOnAdapter.Reset | src/security_access.cpp:165-168 | forgets every level and keeps the connection |
| SecurityOverSec.StackRefines | src/sec_ipc_adapter.cpp:12-112 | every run of security access on this adapter, with any connection changes inside and between operations, goes through the entries and the trace of a run of the interface |
| SecurityOverSec.VerdictExactly | src/sec_ipc_adapter.cpp:73-112 | after every run: a key is verified if and only if it is put to the client, which answers 0, and failed if and only if it is due and the client cannot be asked or answers anything else; the entry, the call and the connection afterwards |
| SecurityOverSec.GrantExactly | src/sec_ipc_adapter.cpp:12-71 | after every run: the one or two calls of a seed request, and that the seed is granted if and only if the last answer is 0, with the data of that answer |
| SecurityOverSec.ClientIsCalled | src/security_access.cpp:12-67 | after every run the client hears of a seed request if and only if both connection tests succeed and the failures do not lock the level out; of a key, if and only if in addition a seed is pending |
| SecurityOverSec.UnheardExactly | src/security_access.cpp:43-73 | after every run a key counts as failed without a client call if and only if the service was available, a seed is pending, the level is not locked out and the connection is lost before `verify_key` |
| SecurityOverSec.LockedOutUnheard | src/security_access.cpp:62-73 | a run that locks the level out although the client was never asked to verify a key |
| SecurityOverSec.CallsFollowTrace | src/sec_ipc_adapter.cpp:25-42 | the verifications of the trace are the client verifications plus the keys the client never heard of; client seed calls never exceed two per request |
| SecurityOverSec.ClientVerifiesOncePerSeed | src/sec_ipc_adapter.cpp:86-99 | in every run keys put to the SEC client, keys it never heard of and a pending seed never exceed the seeds granted |
| Prov.MapProvError | src/nrc_mapper.cpp:34-60 | code 1001 is a denied access, 1002 a bad format, 1003 to 1010 a failed execution, and every other code an internal error |
| Prov.RealProvAdapter.WriteVin | src/real_prov.cpp:14-77 | the client calls, their order and the reported result |
| Prov.TwoStepWrite | src/real_prov.cpp:14-77 | the configuration is written only after a successful VIN write and only if there is one; success if and only if everything was written; the reported code and the connection by the last call |
| ReconnectThreads.MutexStep | src/sec_ipc_adapter.cpp:122-126 | at most one thread is inside |
| ReconnectThreads.StampStep | src/sec_ipc_adapter.cpp:128-138 | every step of every thread keeps the throttle fields and the log of attempts consistent |
| ReconnectThreads.EveryInterleaving | src/sec_ipc_adapter.cpp:114-155 | so does every interleaving of any number of threads and connection drops |
| ReconnectThreads.AttemptsAreThrottled | src/sec_ipc_adapter.cpp:128-133 | an unforced attempt is stamped at least 500 ms after the previous one of either kind, and called later than that less the previous delay |
| ReconnectThreads.AttemptsPerWindow | src/real_prov.cpp:164-169 | a window of length T holds at most T/500 ms + 1 stamps and T/500 ms + 2 calls |
| ReconnectThreads.CallGaps | src/sec_ipc_adapter.cpp:132-138 | for every delay of a call on its stamp, exactly which gaps to the next unforced call happen |
| ReconnectThreads.CallsApartExact | src/sec_ipc_adapter.cpp:132-138 | unforced calls keep 500 ms distance after calls with that delay, in all runs, if and only if the delay is zero |
| ReconnectThreads.UndisturbedEnsure | src/real_prov.cpp:150-188 | an uninterrupted thread does what the sequential adapter does |
| ReconnectThreads.UndisturbedForce | src/real_prov.cpp:194-203 | a forced reconnect never waits and restarts the interval |
| ReconnectThreads.LateDecision | src/sec_ipc_adapter.cpp:128-138 | the throttle compares and stamps the clock reading, however late the comparison and the call are |
| ReconnectThreads.ReconnectOnce | src/sec_ipc_adapter.cpp:122-126 | a thread that waited for the mutex while another one reconnected makes no attempt of its own |

## Left out

- Sockets, polling, accepting connections, the DoIP handshake and partial sends: a link is the bytes still to come and the frames handed to the socket; whether data is ready or a tester connects is an input.
- A read that waits for bytes which never come and a connection that stays open: the input sequence is everything the peer will send before it closes.
- The SEC and PROV services, their clients and their IPC: their answers are inputs, one per call.
- Two simultaneous calls of the service: the service holds one mutex per request, so its runs are sequences of requests; concurrency is modelled where the source relies on it, in the reconnecting adapters.
- Texts for people: log records, trace and request identifiers, diagnostic error strings and the JSON queries of the local IPC server.
- Reading the configuration: it changes no value used here; only whether it loads is an input.
- The DoCAN adapter, which is a stub, the command-line tool and the client library.
- The tables from diagnostic errors to negative response codes: not used on the request path.
- The other operations of the SEC adapter (key pair, CSR, submission): each is one checked call without state of its own.
- The PROV read: which state name stands for which binding state.
- Replacing the transport of a running service: a service keeps the transport it was built with.
