# DuckFlight, verified

DuckFlight serves a DuckDB database over network protocols. Around the database sit small
pieces of code whose mistakes are silent: a proxy that puts the worker to sleep and wakes it
through the Kubernetes API, a process that starts the database CLI in its container, a list
that several threads read at once, and a few encoders and comparisons. This project models
those pieces and proves what they are for.

The centre is the idle proxy, `crates/duckflight-idle-proxy/src/main.rs`. It scales one worker
Deployment between zero and one by compare-and-swap writes. A write can time out and take
effect later, the process can die at any `await` and be replaced, and the worker must never be
deleted under a protected session.

* `Wrappers` holds the two result types. `Cluster` and `MergePatch` hold the Deployment, its
  writes (also as the JSON merge patches of section 2 of RFC 7396 that they are), the pods and
  the worker's admission gate.
* `IdleProtocol` is the system as a state machine. Every `await` of the controller is a
  program point; between any two of its requests the clock, the API server, the pods, the
  sessions, late messages, a failure, an abort of the idle task, a crash or a new process may
  act. Requests stay in the network for ever, so one can be lost, delayed or repeated.
* `Identifiers` and `Ownership` hold for any number of live controllers and any external
  edit. `SleepSafety`, `SleepTheorems`, `HandedOutGate` and `WorkerRestart` treat guarded runs: one live
  controller at a time and no external edit, which is what the chart's single `Recreate`
  replica provides and all that its README promises. `IdleInterval` is about the connection
  count, the idle interval and the deadline of a wake.
* `ProxyController` is the program itself, as a class whose methods update `needsFence`,
  `connections` and `idleSince` between awaited requests. Each method is proved to take only
  steps of the state machine (`ControllerMoves`), so every theorem about guarded runs holds at
  each of its awaits. What happens during each await, and whether its answer arrives, is
  given beforehand as a list of turns (`Awaits`); an operation's failure is traced to the turn
  that brought no answer, or to an answer that could not be used.

The other modules stand alone: `Launcher` (the container's first process), `ServerList` (the
table function that lists servers), `Quack` and `Utf8` (request encoder and header decoder),
`Toml` and `Jwks` (the authentication helper), and `RowMatching` (the benchmark's row
comparison).

Four promises do not hold as plainly as they are made. Each has its counterexample here next
to the statement that does hold:

* A worker whose process restarts by itself comes back with its gate open. Without a restart a
  sleep loses no session; with one, every moment at which a sleep can take effect can lose one
  (`WorkerRestart`).
* After a failed read of the startup SQL the launcher returns while the database CLI still
  runs, exactly when a termination request interrupts its last wait; on every other way out
  the CLI's end is awaited (`Launcher`).
* The greedy row comparison can miss a pairing when a float is close to several others. Rows
  that can be paired are accepted in whatever order they come exactly when rows that share a
  match share all of them (`RowMatching`).
* The calls on the server list return a prefix of it, no row twice, if and only if none of
  them, with room and coming behind the last row, is brought back to a row by the wrapping of
  the offset at 2^64. That happens, for one, with more than 2^53 calls for chunks of 2048
  rows; it cannot happen below 2^64 rows of capacity, nor when each of a realistic number of
  callers stops at its first empty chunk (`ServerList`).

Two round trips hold on all but a named family of inputs: `Quack.HeaderRoundTrip` (a kind from
2^70 on, or a connection of 2^63 bytes or more) and `Toml.ValueRoundTrip` (strings with U+007F,
which the printer leaves unescaped and TOML v1.0.0 forbids).

## Model

| member | source | states |
|---|---|---|
| SleepTheorems.SleepFindsGatedWorker | crates/duckflight-idle-proxy/src/main.rs:415-436 | whenever a scale-to-zero takes effect, from whichever controller and however late, exactly the suspended pod exists, no connection is handed out, and unless that worker restarted itself it is gated and holds no session |
| SleepTheorems.OpenConnectionKeepsWorkerAwake | crates/duckflight-idle-proxy/src/main.rs:452-476 | while a connection that `wake` gave a backend is open, no scale-to-zero can take effect, including writes of timed-out ticks and crashed predecessors |
| SleepTheorems.FenceDownMeansNothingApplies | crates/duckflight-idle-proxy/src/main.rs:253-255 | whenever the live controller's fence flag is down, no patch in flight can be applied, now or after any continuation of the run |
| SleepTheorems.StaleForever | crates/duckflight-idle-proxy/src/main.rs:253-255 | a patch that is stale once is stale in every state reached from there, with any number of controllers |
| SleepTheorems.WakeNeverHandsOutDoomedPod | crates/duckflight-idle-proxy/src/main.rs:357-364 | the pod a wake hands out is the only one, is not terminating, and existed when no scale-to-zero took effect |
| SleepTheorems.DoomedPodStaysShut | crates/duckflight-idle-proxy/src/main.rs:351-352 | a pod that existed when a scale-to-zero took effect stays gated and empty, can admit no session, and no resume ever sent opens it, until it is gone |
| SleepTheorems.ResumeIsSentAfterFence | crates/duckflight-idle-proxy/src/main.rs:392-399 | a resume, of a wake, a tick or a rollback, is sent only when every patch in flight is unable to apply, and never to a pod that a scale-to-zero found |
| SleepTheorems.OldResumeNeverOpensNewGate | crates/duckflight-idle-proxy/src/tests.rs:141-148 | a resume sent before a suspension closed the gate leaves that gate shut however late it arrives |
| SleepTheorems.WakeFindsNoPod | crates/duckflight-idle-proxy/src/main.rs:350-356 | a scale from zero to one takes effect only when no pod exists, not even a terminating one, however long the write is delayed |
| SleepTheorems.ListingDecides | crates/duckflight-idle-proxy/src/main.rs:237-246 | a wake or a tick goes on from its pod listing to the status of pod p exactly if p is the only pod, has the ready condition and is not being deleted; otherwise the wake waits 500 ms and the tick ends |
| SleepTheorems.StatusFollowsListing | crates/duckflight-idle-proxy/src/main.rs:321-336 | no other step leads to a status request |
| HandedOutGate.GateStaysOpenExactly | crates/duckflight-idle-proxy/src/main.rs:357-364 | the gate of a pod that an open connection was given stays open through every continuation that keeps the connection if and only if no suspend request was ever sent to that pod; otherwise the late request of a tick that timed out can close it |
| SleepSafety.SafeAlways | crates/duckflight-idle-proxy/src/main.rs:338-438 | the invariant over messages in flight, behind the results above, holds in every guarded run |
| SleepSafety.SafeKept | crates/duckflight-idle-proxy/src/main.rs:338-438 | each guarded step of environment or controller keeps that invariant |
| SleepSafety.MoveIsSafe | crates/duckflight-idle-proxy/src/main.rs:338-438 | each controller step sends only requests the invariant justifies and hands out only pods it allows |
| SleepSafety.AppliedMakesStale | crates/duckflight-idle-proxy/src/tests.rs:106-118 | once a patch has been applied, no patch sent until then, by any controller, can be applied |
| WorkerRestart.SleepWithoutRestartLosesNoSession | crates/duckflight-idle-proxy/src/main.rs:415-436 | in a run without worker restarts a scale-to-zero takes effect only while every pod is gated and empty |
| WorkerRestart.RestartCanAlwaysLoseSession | crates/duckflight-idle-proxy/src/main.rs:415-425 | from every reachable state in which a scale-to-zero can take effect, a restart of the suspended worker and one admission lead to a reachable state in which it still can and the worker holds a session |
| WorkerRestart.RestartLosesSession | crates/duckflight-idle-proxy/src/main.rs:415-425 | such a state is reached by a concrete guarded run |
| WorkerRestart.BootsStandAlways | crates/duckflight-idle-proxy/src/main.rs:420-422 | without restarts every boot id on record stays the boot of its pod |
| Ownership.ScaleWritesAreOwned | crates/duckflight-idle-proxy/src/main.rs:281-319 | with any number of controllers and external edits, a replica write takes effect only while the owner annotation names its writer and the uid is the one its writer started with |
| Ownership.OwnerChangesOnlyByFence | crates/duckflight-idle-proxy/src/main.rs:292-305 | short of a replacement of the Deployment, ownership changes only when a fence takes effect, which never changes the replica count |
| Ownership.OwnedAlways | crates/duckflight-idle-proxy/src/main.rs:281-319 | the invariant behind both holds in every run |
| Identifiers.IdsKept | crates/duckflight-idle-proxy/src/main.rs:281-319 | every step keeps fresh identifiers fresh and only advances the server's version |
| IdleInterval.SuspendFollowsIdleInterval | crates/duckflight-idle-proxy/src/main.rs:400-415 | a suspend follows an unbroken series of idle ticks of the same pod and boot whose answers arrived over a span of at least the timeout, with no wake, ended connection or failed tick in between |
| IdleInterval.HistoryIsHonest | crates/duckflight-idle-proxy/src/main.rs:512-519 | the history only grows, records every wake, ended connection, failed and dropped tick, and an idle observation only of an open, idle worker |
| IdleInterval.EveryTickIsRecorded | crates/duckflight-idle-proxy/src/main.rs:372-438 | every tick that ends leaves exactly one entry as it ends: a failure, a drop, an idle observation of an open and idle worker, and otherwise, for a busy or suspended worker, no ready pod, zero replicas or open connections, that it was not idle |
| IdleInterval.CountIsOpenConnections | crates/duckflight-idle-proxy/src/main.rs:452-476 | in every interleaving `connections` equals the tasks between increment and release, and is zero exactly when there is none |
| IdleInterval.WakeTurnsAreBounded | crates/duckflight-idle-proxy/src/main.rs:338-370 | a wake enters its loop at most ceil(cold_start_timeout / 500 ms) times, whatever the cluster does |
| MergePatch.MergeIsIdle | crates/duckflight-idle-proxy/src/main.rs:120-127 | a JSON merge changes nothing exactly when the document already contains the patch |
| MergePatch.MergeIsIdempotent | crates/duckflight-idle-proxy/src/main.rs:120-127 | a merge patch that is applied twice does what it does once |
| MergePatch.WriteChangesOnly | crates/duckflight-idle-proxy/src/main.rs:113-127 | an accepted write sets the two annotations and, if asked, the replica count, and leaves every other member at every level as it was |
| MergePatch.WriteIsIdle | crates/duckflight-idle-proxy/src/main.rs:297-302 | an accepted write changes nothing exactly when the document shows its owner, operation and count already, so a fresh operation id always makes a new version |
| MergePatch.WriteRefinesApplied | crates/duckflight-idle-proxy/src/main.rs:113-139 | the document written by a merge patch shows the fields that the protocol's `Applied` gives, is accepted exactly when `CanApply`, and is new exactly when the model makes a version |
| ProxyController.Proxy.constructor | crates/duckflight-idle-proxy/src/main.rs:261-276 | a new process continues any guarded run without a live controller, with the fence flag up |
| ProxyController.Proxy.Current | crates/duckflight-idle-proxy/src/main.rs:281-290 | a read succeeds exactly when it is answered, the uid is the adopted one and, with the flag down, the owner is this process |
| ProxyController.Proxy.Patch | crates/duckflight-idle-proxy/src/main.rs:113-139 | exactly one patch is sent, with the flag up, and success is reported exactly when an answer arrives and the patch took effect |
| ProxyController.Proxy.Fence | crates/duckflight-idle-proxy/src/main.rs:292-305 | on success the flag is down and nothing in flight can take effect; on failure the flag is up; it fails exactly if the answer to its read or to its write did not arrive, the uid was another, or the write had not taken effect |
| ProxyController.Proxy.ReadyPod | crates/duckflight-idle-proxy/src/main.rs:237-246 | an answer that arrives gives the pod that is the only one, has the ready condition and is not being deleted, and none exactly if there is no such pod |
| ProxyController.Proxy.ListPods | crates/duckflight-idle-proxy/src/main.rs:357-368 | the wake goes on to that pod, waits half a second if there is none, and stops exactly if the listing's answer did not arrive |
| ProxyController.Proxy.WakeFromZero | crates/duckflight-idle-proxy/src/main.rs:350-356 | the scale to one is sent, against the version read before, exactly if the pod listing was answered and empty, nothing is sent otherwise, and the turn stops exactly if an answer did not arrive or the write had not taken effect |
| ProxyController.Proxy.ScaleUp | crates/duckflight-idle-proxy/src/main.rs:307-319 | the flag is up from the sending of the write until the write is known to have taken effect, and stays up if that is not known |
| ProxyController.Proxy.WakeRunning | crates/duckflight-idle-proxy/src/main.rs:357-366 | the pod handed out was, when the pods were listed, the only one, ready and not being deleted; none is handed out only if the listing showed no such pod; an error is an answer that did not arrive or could not be used |
| ProxyController.Proxy.OpenGate | crates/duckflight-idle-proxy/src/main.rs:358-364 | the pod is handed out only if it was open when its status was read, or its resume has since been honoured, and then nothing in flight can take effect |
| ProxyController.Proxy.AwaitResume | crates/duckflight-idle-proxy/src/main.rs:360-362 | a gated pod is handed out only once the worker has honoured the permit of its resume |
| ProxyController.Proxy.WakeTurn | crates/duckflight-idle-proxy/src/main.rs:345-368 | one turn of the loop hands out the only, ready pod of its listing, or waits because the listing showed none or replicas were at zero, having scaled up if no pod was left, or stops at an await whose answer did not arrive or could not be used |
| ProxyController.Proxy.Wake | crates/duckflight-idle-proxy/src/main.rs:338-370 | success hands out one pod that was listed as the only one, ready and not being deleted, and that no scale-to-zero found, with nothing in flight able to take effect; failure hands out none and means that an answer did not arrive or could not be used, or that the whole cold-start timeout has passed and the last turn found no pod to hand out; no scale-to-zero is sent while a connection is counted |
| ProxyController.Proxy.NoteIdle | crates/duckflight-idle-proxy/src/main.rs:404-411 | the idle interval goes on for the same pod and boot and otherwise starts now |
| ProxyController.Proxy.TickWorker | crates/duckflight-idle-proxy/src/main.rs:392-415 | a suspended worker has been sent its resume, a busy one nothing, an idle one a suspend request exactly if the interval of its pod and boot is as old as the timeout, and else its interval goes on or starts; the tick stops here exactly if the status did not arrive |
| ProxyController.Proxy.TickIdle | crates/duckflight-idle-proxy/src/main.rs:404-415 | with the interval of this pod and boot shorter than the timeout nothing is sent and it goes on; otherwise the suspend request for this pod has been sent |
| ProxyController.Proxy.EndInterval | crates/duckflight-idle-proxy/src/main.rs:376-391 | a tick that ends without an idle worker leaves no interval running and sends no patch |
| ProxyController.Proxy.Sleep | crates/duckflight-idle-proxy/src/main.rs:415-437 | the scale-to-zero, against the version read at the start of the tick, is sent exactly if a reply to this very suspend request shows the same boot, no activity and a permit; without a permit the tick ends well; success leaves no idle interval |
| ProxyController.Proxy.ScaleDown | crates/duckflight-idle-proxy/src/main.rs:425-437 | that scale-to-zero and no other is sent; the tick succeeds exactly if its answer arrives and it has taken effect, and then the flag is down |
| ProxyController.Proxy.AfterSleep | crates/duckflight-idle-proxy/src/main.rs:425-437 | success is reported exactly if the write took effect, and then the flag is down; after a failure the sleep has been undone, the flag is up or nothing in flight can take effect, and only fences were sent |
| ProxyController.Proxy.UndoSleep | crates/duckflight-idle-proxy/src/main.rs:427-434 | after a fence that failed no resume is sent; after one that succeeded the resume is sent exactly if a read behind it is answered, shows the adopted Deployment still owned and one replica wanted; if the flag is down at the end, nothing in flight can take effect |
| ProxyController.Proxy.ResumeIfWanted | crates/duckflight-idle-proxy/src/main.rs:430-433 | behind the fence, the resume with the permit of the suspension is sent exactly if the read is answered and shows one replica of the owned Deployment |
| ProxyController.Proxy.IdleTick | crates/duckflight-idle-proxy/src/main.rs:372-438 | a tick keeps the run a guarded run and records what it saw; it is followed step by step from what it read: with connections, at zero replicas, without the one ready pod or with a busy worker it ends the interval and sends nothing but its fence; it fails only if an answer did not arrive or could not be used, or the scale to zero was sent and its answer did not come or not show it applied; no scale-to-zero is sent while a connection is counted |
| ProxyController.Proxy.FailureIsExcused | crates/duckflight-idle-proxy/src/main.rs:372-438 | a tick that fails has consumed a turn without an answer, or one whose answer is unusable at the await where it stopped |
| ProxyController.Proxy.IdleWorkerIsPutToSleep | crates/duckflight-idle-proxy/src/main.rs:400-425 | a tick whose answers show one replica, one ready pod, its gate open, no session, and an interval of this pod and boot as old as the timeout has sent the suspend request for it; and if the answer to that shows a permit, the scale to zero against the version it read |
| ProxyController.Proxy.TickTask | crates/duckflight-idle-proxy/src/main.rs:512-521 | every tick is carried out and recorded; a failed one is excused by its awaits, its interval cleared, and the mutex free again |
| ProxyController.Proxy.Connect | crates/duckflight-idle-proxy/src/main.rs:452-462 | the count is one higher exactly when a backend was handed out, which was listed as the only, ready pod; none is only after an answer that did not arrive or could not be used, or the cold-start timeout; the wake is recorded either way |
| ProxyController.Proxy.Disconnect | crates/duckflight-idle-proxy/src/main.rs:472-476 | the count goes down by one, this connection's place is released, the end recorded and the idle interval ended |
| ProxyController.Proxy.CountIsExact | crates/duckflight-idle-proxy/src/main.rs:441-476 | between tasks the program's count is the number of open connections, and while one is open no scale-to-zero ever sent can apply |
| ProxyController.Proxy.RunTasks | crates/duckflight-idle-proxy/src/main.rs:498-563 | over any sequence of clients, departures and ticks every task is carried out in order, with its entries in the history, and the count stays exact and never underflows |
| Launcher.Launcher.Run | docker/server.c:117-211 | for every schedule of SIGTERM, SIGINT and the CLI's end: the process is left waiting exactly if none of them comes and the startup SQL can be read, and then all commands were written; otherwise the CLI's input is closed and its status returned, its own code after an exit and 128 + n after signal n, or it is still awaited because it never ends, or, after a read error, it was reaped or had SIGINT passed on |
| Launcher.StatusTellsApart | docker/server.c:205-211 | the returned status tells a signal from an exit with a code up to 128, and is zero only after an exit with zero |
| Launcher.Launcher.GiveUp | docker/server.c:150-157 | after a read error the process returns with the CLI running exactly if a request comes in the last wait before the CLI's end |
| Launcher.ReadErrorCanLeaveCli | docker/server.c:150-157 | a whole run that does so |
| Launcher.Launcher.Attend | docker/server.c:171-211 | with all reads done the process waits, quits and awaits the CLI, or returns its status; it never returns with the CLI running |
| Launcher.Launcher.Deliver | docker/server.c:13-20 | the handler runs exactly for an unblocked termination signal, a blocked one stays pending, an ended CLI stays pending or told, and SIGINT never goes to a reaped process |
| Launcher.Launcher.Push | docker/server.c:124-137 | a stream call falls short only by an interruption that has set `stopping` or because the CLI is gone, and then the stream is marked failed |
| Launcher.Launcher.CopyStartup | docker/server.c:144-149 | the last read is made only with no request and a stream without gaps behind it, which then carries all the startup SQL; otherwise a termination was requested or the stream has a gap |
| Launcher.Launcher.Open | docker/server.c:160-170 | unless a termination was requested, a stream without gaps carries the lock settings, then the listeners, then the ready line |
| Launcher.Launcher.Launch | docker/server.c:138-171 | an undisturbed launch writes exactly the commands of the configuration, in order |
| Launcher.Launcher.SigWait | docker/server.c:183-191 | waiting ends without a signal only when none is pending, and a taken signal is remembered |
| Launcher.Launcher.Wait | docker/server.c:174-196 | the loop ends with the CLI's status, or with a heard request passed on to the CLI, or waits with nothing lost |
| Launcher.LocksPrecedeListeners | docker/server.c:160-169 | in the byte stream the complete lock settings lie in one piece before the first byte of a listener's start |
| Launcher.SettingsPrecedeListeners | docker/server.c:164-169 | the three settings, in these very words, are complete and in order before the first byte of a listener's start |
| Launcher.QuotedIsReadBack | docker/server.c:27-34 | SQL reads a quoted setting or address back whole, whatever it contains |
| ServerList.Listing.FetchAdd | src/lib.rs:301-301 | the claim is the old offset, and the offset advances by the capacity, wrapping at the machine's word |
| ServerList.Listing.Func | src/lib.rs:296-313 | the chunk receives exactly the snapshot rows of the call's claim and is otherwise untouched |
| ServerList.RowsAt | src/lib.rs:152-157 | a claim yields no more rows than the chunk has room for |
| ServerList.InterleavingsAreExplained | src/lib.rs:296-313 | in every interleaving each call works on the claim given by its place among the atomic additions |
| ServerList.ClaimsAreDisjoint | src/lib.rs:296-313 | while the capacities do not overflow a word, no two claims overlap |
| ServerList.CallsListPrefix | src/lib.rs:296-313 | for any capacities, the calls together list a prefix of the snapshot, every row of it once, if and only if no call with room behind the last row is brought back by the wrapping of the offset |
| ServerList.EmptyMeansComplete | src/lib.rs:302-305 | once a call with room finds nothing, everything has been listed exactly once, if and only if no call is brought back, and then all later ones find nothing |
| ServerList.ConcurrentListingIsExact | src/lib.rs:296-313 | when all concurrent calls have returned and one with room found nothing, the rows returned are exactly the snapshot if and only if no call was brought back |
| ServerList.StoppingCallersNeverWrap | src/lib.rs:296-313 | callers that each stop at their first empty chunk bring none back as long as rows plus one chunk for each caller and one more stay below 2^64 |
| ServerList.OverflowListsTwice | src/lib.rs:301-301 | calls can be brought back: with chunks of any size that divides the word, such as 2048, enough calls on any nonempty snapshot return more rows than it has |
| Quack.EncodeUleb | test/release/http_quack_smoke.py:34-40 | the loop fills in the LEB128 bytes of the value (section 7.6 of DWARF version 5) |
| Quack.DecodeUleb | test/release/http_quack_smoke.py:67-76 | the bounded loop computes the recursive reading of the number |
| Quack.UlebRoundTrip | test/release/http_quack_smoke.py:34-76 | an encoded number is read back, with the place behind it, exactly when it fits into the groups allowed |
| Quack.QuackHeader | test/release/http_quack_smoke.py:63-91 | the field loop computes the recursive reading of a header, all errors included |
| Quack.HeaderRoundTrip | test/release/http_quack_smoke.py:48-91 | the decoder makes of any request exactly its kind and connection, or an error exactly when the kind is 2^70 or more or the connection's encoding too long for one read |
| Quack.RequestIsRead | test/release/http_quack_smoke.py:48-60 | a request is, byte for byte, its header fields, the end mark, the fields of its body in order, and the end mark: read with the lengths of the values it gives back every field number and value up to the last byte |
| Quack.RequestsExist | test/release/http_quack_smoke.py:48-60 | a request can be encoded exactly when every body field number fits into two bytes |
| Utf8.RoundTrip | test/release/http_quack_smoke.py:43-45 | decoding what UTF-8 encoding wrote gives back any string |
| Toml.ValueRoundTrip | scripts/duckflight_auth.py:491-517 | decoding a printed value, with any delimiter behind it, gives back the nested value and the rest, unless a string in it holds U+007F, which is refused (TOML v1.0.0: String, Array, Inline Table) |
| Toml.PrintedValueDecodes | scripts/duckflight_auth.py:503-517 | the printer fails exactly on values TOML cannot express, and what it prints decodes to the value exactly when no string holds U+007F |
| Toml.FailsOnOtherLeaves | scripts/duckflight_auth.py:503-517 | printing fails exactly on a value with a leaf, however deep, that is neither string, boolean, integer nor float |
| Toml.BodyRoundTrip | scripts/duckflight_auth.py:491-492 | the escapes of a printed string are undone by TOML's basic strings |
| Toml.IntegerRoundTrip | scripts/duckflight_auth.py:503-517 | a printed integer is a TOML integer with the same value |
| Jwks.ValidateStaticJwks | scripts/duckflight_auth.py:193-260 | a key set is accepted exactly if it is acceptable, every refusal names a defect that the list has, and the verdict is that of its keys in order (section 4 of RFC 7517) |
| Jwks.CheckKeys | scripts/duckflight_auth.py:198-260 | the loop over the keys decides acceptability of the whole list |
| Jwks.KeyDecides | scripts/duckflight_auth.py:229-260 | what one key does to the verdict, by its fields: it counts for nothing unless it has an identifier, is meant for verifying and is RSA with RS256 allowed or P-256 with ES256 allowed and no other algorithm named; one that counts needs `n` and `e`, or `x` and `y`, and an identifier no counted key before it has |
| Jwks.OneKey | scripts/duckflight_auth.py:229-260 | a key alone is accepted exactly if it counts and has its two numbers |
| Jwks.IllTypedIsMalformed | scripts/duckflight_auth.py:201-228 | a key that is no object, has no string `kty`, a field of the wrong type, or a number that is not unpadded base64url (section 5 of RFC 4648) makes the list malformed |
| Jwks.AcceptableByContents | scripts/duckflight_auth.py:193-260 | acceptability depends only on which keys occur how often |
| Jwks.OrderDoesNotMatter | scripts/duckflight_auth.py:193-260 | any reordering of the keys is accepted or refused alike |
| Jwks.UnusableKeysDoNotMatter | scripts/duckflight_auth.py:193-260 | a well-formed key the runtime would not select can be added anywhere without changing the verdict |
| RowMatching.SameRows | benchmarks/clickbench/baseline.py:21-43 | the in-place search accepts exactly when the lengths agree and the greedy choice succeeds, whatever floats pass as close |
| RowMatching.RowsMatch | benchmarks/clickbench/baseline.py:21-43 | two rows match when they have the same width and every column matches |
| RowMatching.ToleranceOf | benchmarks/clickbench/baseline.py:21-43 | two finite floats pass as close exactly within 1e-9, or within 1e-10 of either one's size; NaN is close to nothing and an infinity only to itself |
| RowMatching.MixedColumns | benchmarks/clickbench/baseline.py:21-43 | a float and an integer match exactly if they are the same number, and a text matches no number |
| RowMatching.AcceptedMeansPaired | benchmarks/clickbench/baseline.py:21-43 | acceptance implies a one-to-one pairing of matching rows, and when rows sharing one match share all, every pairable input is accepted |
| RowMatching.OrderNeverMatters | benchmarks/clickbench/baseline.py:21-43 | rows that can be paired are accepted in every order of both lists if and only if rows that share a match share all of them |
| RowMatching.FloatlessIsMultisetEquality | benchmarks/clickbench/baseline.py:21-43 | without floats the comparison is equality of row multisets |
| RowMatching.GreedyCanMissAPairing | benchmarks/clickbench/baseline.py:30-42 | with floats a pairable input can be refused |

## Left out

- HTTP, TLS, JSON decoding, bearer tokens and the tokio runtime: reduced to requests that take effect or not, answers that arrive or not, and dropped operations.
- The private core behind the worker's gate: only its suspend, resume and status contract is assumed; permits are assumed fresh.
- Liveness of the proxy: that a worker does wake or does sleep is not stated, only what must hold if it does.
- Session safety with two controllers alive, edits of the replica count by others, eviction and rolling upgrades: outside the guarantee (charts/duckflight/README.md:217-219); only the results of `Ownership` cover them.
- A wake dropped at an await other than by the end of the process: the program drops only its idle task (lines 564-569).
- Reuse of a pod's address by another pod: a control request reaches the pod it was sent to, or none.
- IdleInterval.SuspendFollowsIdleInterval: an answer is read at the moment it arrives, and the span is measured between arrivals, as the program measures it (lines 407-412); the worker's own observations can lie closer together by the time the last answer was under way.
- `IdleProtocol.ProceedStep` merges the arrival of an answer with the sending of the next request; since a sent request may be delivered at any later time, this loses no interleaving of effects.
- MergePatch.WriteRefinesApplied: identifiers are integers in the protocol and are written as strings by an arbitrary one-to-one naming; that the server numbers its versions upwards is an assumption of `Cluster.Applied`.
- Byte forwarding, the health endpoint, `worker_ready` and environment parsing: plumbing.
- ProxyController.Proxy.RunTasks: the tasks of the program run one after the other under the mutex; the bytes forwarded while a connection is open are not part of it.
- Launcher.Launcher.Run: starts behind the fork, with the command stream open; the earlier validations, and failures of `pipe`, `fork`, `fdopen`, `waitpid` and `sigwait` that report their own errors, are not part of the model.
- Launcher.Launcher.GiveUp: the model ends with the return behind the last wait; what a handler does while the process exits is not part of it.
- The meaning of the startup SQL: an unterminated string or comment in it could swallow the commands behind it; the launcher's results are about the order and completeness of what is written.
- ServerList.Listing.Func: the two columns are one row value; strings holding a NUL character and the vector's own capacity check, both errors of the host interface, do not occur.
- Quack.HeaderRoundTrip: strings are sequences of Unicode scalar values, so lone surrogates, which Python's encoder refuses, do not occur; sockets and the DuckDB host of that script are not modelled.
- Toml.ValueRoundTrip: a float is its printed form; the decoder covers the values and keys the printer can write, not comments, bare keys, dates or multi-line strings, and integers are unbounded in both.
- Jwks.ValidateStaticJwks: the JSON is already parsed, and the decoded bytes of base64 fields are not looked at.
- RowMatching.GreedyCanMissAPairing: its floats are compared in exact arithmetic; all other results hold of every closeness of floats, rounded or not. Finite floats are their exact values, and cells are floats, integers, texts and nulls.
- The other validators of the authentication helper, password hashing, prompts, file writing, the FFI layer and ABI crate, benchmark process control, log parsing, shell scripts, Helm templates and SQL files: input and output, or claims of a single branch.
