# Verified model of the elepn tunnel

elepn is a desktop VPN client in two halves. A privileged Go daemon starts and stops one xray-core child process and
keeps a registry of configs; an Electron app talks to it over a socket. This project models the parts of both halves in
which the order of events matters, and proves what they keep.

**The tunnel state actor** (`daemon/internal/state`) is the core. One goroutine owns the tunnel's fields and drains a
command queue; connect workers and teardown goroutines run beside it and report back through the same queue; a revert
timer and the child's exit come in from outside.

- `Tunnel.dfy`, `Handlers.dfy` and `WorkerSteps.dfy` say what each handler and each worker step does, as functions.
- `TunnelSystem.dfy` puts actor, queue, goroutines, children and log into one transition system. A handler's effects are
  carried out one at a time, so every other goroutine may step in between; callers may call at any point.
- `TunnelInvariant.dfy` is the invariant; `HandlerEffects.dfy`, `TakeSteps.dfy`, `EffectSteps.dfy`,
  `GoroutineSteps.dfy` and `InvariantSteps.dfy` show that every step keeps it.
- `TunnelTheorems.dfy`, `TunnelCancel.dfy`, `TunnelLateFork.dfy`, `TunnelIntent.dfy`, `TunnelQuiescence.dfy`,
  `TunnelReplies.dfy`, `TunnelAnswers.dfy` and `TunnelRevert.dfy` hold the results about whole runs;
  `TunnelRequests.dfy` says what each command and report does in a state that a run can reach.
- `TunnelShutdown.dfy`, `TunnelLone.dfy`, `TunnelBefore.dfy`, `TunnelShutdownSafe.dfy`, `TunnelShutdownExact.dfy`,
  `TunnelShutdownEnds.dfy` and `TunnelShutdownRace.dfy` say what shutdown leaves behind, exactly when, and that it ends.
- `Machine.dfy`, `ConnectWorker.dfy`, `Cleanup.dfy` and `Subscribers.dfy` are the imperative side: classes with the
  source's fields, whose methods are proved to do exactly what those functions say.

**Around it**: `Truncate.dfy`, `TokenBucket.dfy`, `SupervisorRing.dfy`, `ValidateRing.dfy`,
`ValidateRingHistory.dfy`, the config registry
(`UlidText.dfy`, `Registry.dfy`, `RegistryRuns.dfy`, `RegistrySteps.dfy`, `RegistryTheorems.dfy`, `RegistryQuota.dfy`,
`RegistryList.dfy`, `RegistryErrors.dfy`, `ConfigStore.dfy`), `SocksDialer.dfy`, and from the app `FrameReader.dfy`,
`Utf8.dfy`, `JsText.dfy`, `AppModel.dfy`, `AppTheorems.dfy`, `AppEffects.dfy`, `AppEngines.dfy` and `AppObjects.dfy`.
`Base.dfy` and `Bytes.dfy` are shared vocabulary.

`dafny verify dfyconfig.toml` checks everything.

## Where the code differs from what it says

- The all-zero id parses as a ULID, and the actor also uses it for "no pending switch" and "no active config". A Switch
  to it is acknowledged like any other but reaches its target only under `TunnelIntent.SwitchReaches`
  (`daemon/internal/state/handlers.go:66`, `daemon/internal/state/handlers.go:102`). The intent theorem carries that
  condition exactly instead of excluding the id.
- A comment says that handleSwitch sets the pending id before it calls handleDisconnect
  (`daemon/internal/state/handlers.go:155`); it sets it afterwards (`daemon/internal/state/handlers.go:85`), as modelled.
- Shutdown is described as stopping the child (`daemon/internal/state/machine.go:180-187`), but it leaves the generation
  alone, so the report of the attempt it cancels is still current, and the drain discards reports without running their
  stacks (`daemon/internal/state/machine.go:197-201`). A worker that succeeds beside shutdown, or whose success is still
  queued ahead of it when the context ends, loses its child or brings the tunnel up again; a worker that fails because of
  it, as a killed validation does, puts the tunnel in Error with the revert timer running. `TunnelShutdownRace` has the
  four runs. `TunnelShutdownExact.ShutdownCleansUpIff` says exactly when shutdown keeps its word, for every state of a
  daemon run in which the actor is between two commands and shutdown has not been handled yet.
- A cancelled attempt can still start its child: the supervisor looks at the context once, before the pipes are made and
  the process is forked (`daemon/internal/supervisor/supervisor_linux.go:82`,
  `daemon/internal/supervisor/supervisor_linux.go:107`). `TunnelLateFork.ForkAfterCancel` is such a run, and
  `TunnelCancel.GivenUpForksIff` says exactly which workers can.
- A Switch that looks at the context just before it ends (`daemon/internal/state/machine.go:91-103`) can send its command
  after the last drain; it then waits for a reply that never comes (`daemon/internal/state/api.go:125-130`).
  `TunnelShutdownRace.SwitchCanBeStranded` is such a run; by `TunnelReplies.CallAnsweredIff` a call is answered by the time
  the actor has exited exactly if it was queued before.
- The revert command carries no generation (`daemon/internal/state/auto_revert.go:9-14`), so one from an earlier Error can
  end a later one at once: `TunnelRevert.RevertCanBeEarly`, and exactly when: `TunnelRevert.EndedEarlyIff`.
- The validator's ring buffer is documented to keep the last `cap` bytes (`daemon/internal/xrayconfig/ringbuf.go:3`). A
  short write into a full buffer whose oldest byte is not at index 0 keeps the wrong bytes. `ValidateRing.AgreesExactly`
  says exactly when a write does, and `ValidateRingHistory.HistoryIff` which sequences of writes do.
- The config quota is a check at one step and a publish at another, so k concurrent Adds can overshoot it by k - 1
  (`RegistryQuota.QuotaBoundIsReached`), and by no more (`RegistryTheorems.QuotaBound`).
- A lower-case file name parses as an id and is listed, but is not the file of that id (`Registry.OwnNameIffUpper`).
- The frame reader's buffer survives a reconnect (`app/src/main/services/daemon-client.ts:112`), so what was left of the
  old stream is prefixed to the new one. That goes unnoticed exactly if it was nothing but white space
  (`FrameReader.Utf8LeftoverSpoilsIff`).
- A List whose file is removed between the directory scan and the read fails as a whole
  (`daemon/internal/xrayconfig/store.go:213-216`, `RegistryList.SpreadListIff`).
- toggleConnection has a branch for an error on a config that is gone. The mock engine never gets there; an engine that
  reports errors does (`AppEngines.ToggleCanThrow`).

## Model

| member | source | states |
|---|---|---|
| InvariantSteps.StepKeeps | daemon/internal/state/machine.go:106-157 | any step of the actor, a worker, a teardown, a caller, the timer or a child keeps the global invariant over queue, goroutines, fields, children and log |
| TunnelTheorems.Reachable | daemon/internal/state/machine.go:106-128 | the invariant holds in every state of every run from the daemon's start until shutdown takes effect |
| TunnelTheorems.LinearOwnership | daemon/internal/state/handlers.go:89-147 | in every run each spawned child is stopped at most once; until its stop has returned exactly one worker, queued report, armed stack, teardown or running handler owns its stack, and nobody afterwards |
| TunnelTheorems.MutualExclusion | daemon/internal/state/connect_worker.go:60-70 | over a whole run spawns and stops alternate child by child, and at most one child's stop is outstanding |
| TunnelTheorems.SpawnFindsAllStopped | daemon/internal/state/connect_worker.go:60-64 | whenever a worker is about to spawn, every earlier child's stop has returned exactly once |
| TunnelTheorems.TokenDiscipline | daemon/internal/state/handlers.go:21-37 | the posted state says exactly which operation is outstanding, with which generation and id, so Disconnecting always has somebody to end it; both directions |
| TunnelTheorems.PostedTrace | daemon/internal/state/machine.go:230-243 | the posts of every run form a legal trace from idle that ends in the actor's present state |
| TunnelTheorems.ConnectedIsEarned | daemon/internal/state/handlers.go:137-148 | every Connected post directly follows Connecting and Validating for the same config, and a pid appears in Connected posts only |
| TunnelTheorems.ReconnectPassesDown | daemon/internal/state/handlers.go:180-206 | between two Connected posts there is a Disconnected or an Error |
| TunnelTheorems.FieldConsistency | daemon/internal/state/handlers.go:137-141 | Connected iff a stack is armed, and then child and active id match the post; child and exit channel go together; a pending switch only in Disconnecting; a cancel function iff Validating or Connecting |
| TunnelTheorems.ErrorHasExit | daemon/internal/state/auto_revert.go:9-14 | in Error a timer is ticking, its goroutine is posting, or its command is queued; out of Error no timer is held |
| TunnelTheorems.ErrorIsHeld | daemon/internal/state/types.go:122-131 | in Error, GetStatus, progress and worker reports leave every field alone, the timer included |
| TunnelTheorems.LateRevertIsInert | daemon/internal/state/auto_revert.go:23-29 | a revert that arrives out of Error changes and posts nothing; in Error it leads to idle |
| TunnelRevert.EndedEarlyIff | daemon/internal/state/auto_revert.go:9-29 | in Error with that Error's timer ticking, some continuation reverts it before the timer fires iff a revert from before is queued with nothing ahead of it that leaves Error, or about to be posted with nothing queued that does |
| TunnelRevert.FiredInThisError | daemon/internal/state/auto_revert.go:9-21 | if the timer shows as fired, it fired after the present Error was entered |
| TunnelRevert.RevertCanBeEarly | daemon/internal/state/auto_revert.go:23-29 | a run in which the first Error's revert ends the second Error, whose own timer is still ticking |
| TunnelCancel.PreflightIsWanted | daemon/internal/supervisor/supervisor_linux.go:78-84 | a worker passes the supervisor's look at its context only while the posted state is on its attempt and its config, or in the moment its cancellation is being carried out |
| TunnelCancel.GivenUpForksIff | daemon/internal/supervisor/supervisor_linux.go:82-112 | at the moment an attempt's cancellation is carried out, some continuation still forks a child for it iff its worker is then past that look and has not forked yet |
| TunnelLateFork.ForkAfterCancel | daemon/internal/supervisor/supervisor_linux.go:82-112 | a run in which a worker forks in Disconnecting, after its cancel was carried out |
| TunnelCancel.ShutdownCancels | daemon/internal/state/handlers.go:268-274 | every worker that shutdown finds running is cancelled, or about to be |
| TunnelIntent.IntentRefined | daemon/internal/state/handlers.go:53-109 | every step moves the wanted config as a function of the wish, the command and its reply, the state the actor was in and whether a reported failure is current says, so only accepted requests, failures of the current attempt and a child's death change it |
| TunnelIntent.ConnectIntent | daemon/internal/state/handlers.go:14-19 | a Connect sets the wish to its id if its caller is told yes, and leaves it alone if not |
| TunnelIntent.DisconnectIntent | daemon/internal/state/handlers.go:151-206 | a Disconnect clears the wish, a deferred switch included, and is refused only when already down |
| TunnelIntent.SwitchIntent | daemon/internal/state/handlers.go:53-87 | a Switch is accepted unless Disconnecting, and an accepted one sets the wish to its id exactly under a condition on id, wish and state |
| TunnelIntent.DeferredSwitchStarts | daemon/internal/state/handlers.go:208-224 | the report that ends a teardown with a deferred target starts one connect, to that target, and clears the deferral |
| TunnelRequests.ConnectDoes | daemon/internal/state/handlers.go:14-38 | a Connect while down posts Validating for its id and starts one worker under a new generation; otherwise it changes no field and is only answered |
| TunnelRequests.DisconnectDoes | daemon/internal/state/handlers.go:151-206 | by state: refused when down; only a deferred target dropped while going down; an Error cleared; an attempt cancelled or a child's teardown started after Disconnecting is posted for the same config |
| TunnelRequests.SwitchMovesIff | daemon/internal/state/handlers.go:53-87 | in every state before shutdown a Switch leaves all fields alone iff it is refused, finds its config up, or meets an attempt with the zero id, and is then only answered; any other takes the tunnel down at once and keeps its target unless that is the zero id |
| TunnelRequests.StatusIsPosted | daemon/internal/state/machine.go:163-169 | in every state before shutdown GetStatus changes nothing and leaves exactly one reply pending, with the last status posted |
| TunnelRequests.ReportDoes | daemon/internal/state/handlers.go:112-148 | the current attempt's report posts Connected on its config and child and arms that child's stop, or posts the failure and starts the timer unless it was cancelled |
| TunnelRequests.TeardownEnds | daemon/internal/state/handlers.go:89-110 | the report that ends a teardown stops what it still holds, posts Disconnected, and then starts the deferred target if there is one, in this order |
| TunnelRequests.ProgressDoes | daemon/internal/state/handlers.go:40-51 | Connecting is posted for the current attempt's announcement in Validating, and nothing happens otherwise |
| TunnelRequests.ExitDoes | daemon/internal/state/handlers.go:226-255 | a child that dies under the tunnel is stopped and then posted as Error with xray_died_early and the timer; during a teardown it is only let go |
| TunnelRequests.ShutdownDoes | daemon/internal/state/handlers.go:268-293 | by state: the attempt cancelled or the child stopped, then Disconnected posted unless it is already, then done closed; all fields but the generation as in a fresh actor |
| TunnelQuiescence.InternalSpends | daemon/internal/state/machine.go:106-128 | every step the system takes by itself lowers a potential |
| TunnelQuiescence.InternalRunsEnd | daemon/internal/state/machine.go:106-128 | a run of such steps is no longer than the potential it starts with |
| TunnelQuiescence.RestIsSettled | daemon/internal/state/handlers.go:89-148 | when no such step is left, nothing is queued or running and the state is Disconnected with all children stopped, or Connected on a live child |
| TunnelQuiescence.CanSettle | daemon/internal/state/machine.go:106-128 | from every reachable state there is a run to rest |
| TunnelQuiescence.Quiescence | daemon/internal/state/machine.go:106-128 | with no further request every run is bounded and can only stop in one of those two states |
| TunnelQuiescence.WishComesTrue | daemon/internal/state/handlers.go:208-224 | if nothing fails on the way, the daemon comes to rest Connected to the wanted config, or Disconnected if there is none |
| TunnelReplies.TakeAnswers | daemon/internal/state/handlers.go:14-206 | handling a command sends exactly one reply, on that command's own channel, also where Switch goes through Connect or Disconnect |
| TunnelReplies.DrainAllAnswers | daemon/internal/state/machine.go:176-224 | the drain answers every queued caller exactly once |
| TunnelReplies.ExactlyOneReply | daemon/internal/state/machine.go:106-224 | over every run, drain included, each call's channel is owed or has received exactly one reply, and the shutdown's done is owed or closed exactly once |
| TunnelReplies.CallAnsweredIff | daemon/internal/state/machine.go:106-195 | in every run that reaches the actor's exit, a call has been answered, once, by then and ever after iff it reached the queue before the exit |
| TunnelAnswers.RepliesAreRight | daemon/internal/state/handlers.go:14-206 | in every run, drain included, each reply goes to a call made earlier and says what that request warrants in the status posted when it was taken, or that the daemon is shutting down if it was drained |
| TunnelAnswers.StatusIsLastPosted | daemon/internal/state/machine.go:163-169 | in every run, to its end, each status a caller was given is the last one posted before the reply, or the idle one if none was |
| TunnelAnswers.RunPosted | daemon/internal/state/machine.go:230-243 | in every run, also after shutdown, the actor's state is the last one posted or about to be posted |
| TunnelShutdownRace.SwitchCanBeStranded | daemon/internal/state/machine.go:91-103 | a daemon run in which a Switch looks at the context while it is alive and sends its command after the actor has exited |
| TunnelShutdown.ShutdownCleansUp | daemon/internal/state/handlers.go:268-293 | with no connect outstanding and none started after, shutdown (taken or drained) leaves nothing armed, the last post Disconnected, each child stopped or held by the one running teardown, and done closed once |
| TunnelShutdown.DoneClosedOnce | daemon/internal/state/api.go:179-204 | in every run in which shutdown was handled, done is closed exactly once |
| TunnelShutdownExact.ShutdownCleansUpIff | daemon/internal/state/handlers.go:268-293 | in every state of every run that is between two commands and has shutdown unhandled (queued anywhere or not posted, context alive or done, draining or not): all continuations without a new connect end cleaned up iff no child is lost already and the outstanding attempt can do no harm; a running worker must be unable to succeed, a success must not be queued unless it is taken before Shutdown finds room, and a failure must be stale, a cancellation, ahead of Shutdown or out of the loop's reach; if not, one continuation ends with a last post other than Disconnected or a child never stopped and owned by nobody |
| TunnelShutdownSafe.StepLame | daemon/internal/state/machine.go:106-224 | with such a harmless attempt outstanding every step, before and after shutdown, in loop and drain, keeps it harmless or leaves no attempt at all |
| TunnelBefore.RunBefore | daemon/internal/state/machine.go:106-195 | until shutdown is handled, also with the context done: in the loop the invariant holds or one report was given up and nothing can start any more; in the drain at most one connect is outstanding and holds everything, or a lost child is held by nobody |
| TunnelShutdownEnds.ShutdownEnds | daemon/internal/state/api.go:179-204 | from a safe state with shutdown posted, a run without further calls or connects is bounded, and where it can go no further the actor has exited, nothing runs, every child's stop has returned exactly once, the last post is Disconnected and done is closed once |
| TunnelShutdownEnds.WindingSpends | daemon/internal/state/machine.go:106-195 | every step of loop, goroutines, drain, exit and the end of the context lowers a natural number |
| TunnelShutdownRace.ShutdownCanLeak | daemon/internal/state/machine.go:197-201 | a run in which the drain drops a successful worker's report: the daemon exits with a live child that nobody owns |
| TunnelShutdownRace.ReportCanBeDrained | daemon/internal/state/machine.go:180-201 | a run in which the report is queued ahead of Shutdown and the context ends first: both are drained and the daemon exits beside a live child |
| TunnelShutdownRace.ShutdownCanBeUndone | daemon/internal/state/handlers.go:89-148 | a run in which such a report is taken after shutdown was handled: the tunnel is Connected again |
| TunnelShutdownRace.ShutdownCanEndInError | daemon/internal/xrayconfig/validate.go:129-142 | a run in which shutdown kills a validation, whose failure is then posted: Error, with the revert timer ticking |
| Cleanup.CleanupStack.Push | daemon/internal/state/cleanup.go:26-30 | appends an entry |
| Cleanup.CleanupStack.Run | daemon/internal/state/cleanup.go:34-56 | runs each entry once, newest first, the first time, and nothing after that |
| Cleanup.StopsAreLifo | daemon/internal/state/cleanup.go:45-55 | entry k from the end is the k-th to run, and all of them run |
| Cleanup.ReplyChan.Send | daemon/internal/state/handlers.go:19 | a send into an empty one-slot channel, which cannot block |
| Cleanup.ReplyChan.Recv | daemon/internal/state/handlers.go:84 | a receive from a filled one-slot channel, which cannot block |
| ConnectWorker.DoConnect | daemon/internal/state/connect_worker.go:17-91 | for every way the blocking points can turn out, the sequential routine returns what the small steps return, runs its stack exactly once iff it fails, and hands it over unrun iff it succeeds |
| ConnectWorker.DriveUnrolled | daemon/internal/state/connect_worker.go:35-91 | the first point that fails decides the error; a child is reported iff the spawn was reached, and stopped iff something failed after it |
| ConnectWorker.TimeoutIsPosted | daemon/internal/state/connect_worker.go:72-79 | a wait that ends past a deadline is posted as connect_timeout, unless it was cancelled, and starts the revert timer |
| ConnectWorker.FailureSymbols | daemon/internal/state/connect_worker.go:35-91 | for each way an attempt can fail, first failing point first, the symbol posted: the error's own before the spawn, config_invalid, xray_spawn_failed, xray_died_early, inbound_not_ready, or connect_timeout; a cancelled one shows Disconnected |
| MachineActor.Machine.constructor | daemon/internal/state/machine.go:47-71 | a fresh actor |
| MachineActor.Machine.PostState | daemon/internal/state/machine.go:230-243 | replaces the state, then broadcasts it |
| MachineActor.Machine.CancelAutoRevert | daemon/internal/state/auto_revert.go:16-21 | stops and forgets the timer |
| MachineActor.Machine.ArmAutoRevert | daemon/internal/state/auto_revert.go:9-14 | replaces any timer by a ticking one |
| MachineActor.Machine.HandleConnect | daemon/internal/state/handlers.go:14-38 | does to fields and world what Handlers.HandleConnect says, and answers once |
| MachineActor.Machine.HandleConnectProgress | daemon/internal/state/handlers.go:40-51 | Validating to Connecting for the current generation only |
| MachineActor.Machine.HandleSwitch | daemon/internal/state/handlers.go:53-87 | as Handlers.HandleSwitch, through real nested calls whose inner reply is read back without blocking |
| MachineActor.Machine.HandleConnectDone | daemon/internal/state/handlers.go:89-149 | as Handlers.HandleConnectDone: a stale report's stack is run, a current success is armed |
| MachineActor.Machine.HandleDisconnect | daemon/internal/state/handlers.go:151-206 | as Handlers.HandleDisconnect in each of the six states |
| MachineActor.Machine.HandleDisconnectDone | daemon/internal/state/handlers.go:208-224 | as Handlers.HandleDisconnectDone |
| MachineActor.Machine.FinishTeardown | daemon/internal/state/handlers.go:95-108 | down, then the deferred connect if there is one |
| MachineActor.Machine.HandleChildExit | daemon/internal/state/handlers.go:226-255 | as Handlers.HandleChildExit: inline cleanup before the Error post, except in Disconnecting |
| MachineActor.Machine.HandleAutoRevert | daemon/internal/state/auto_revert.go:23-29 | as Handlers.HandleAutoRevert |
| MachineActor.Machine.HandleGetStatus | daemon/internal/state/machine.go:163-169 | answers with the state and changes nothing |
| MachineActor.Machine.HandleShutdown | daemon/internal/state/handlers.go:268-293 | as Handlers.HandleShutdown: nothing stays armed |
| MachineActor.Machine.Handle | daemon/internal/state/machine.go:132-157 | dispatches every variant and answers those that wait |
| MachineActor.Machine.TakeCommand | daemon/internal/state/machine.go:113-117 | the command arm of the loop |
| MachineActor.Machine.TakeChildExit | daemon/internal/state/machine.go:118-125 | the child-exit arm of the loop |
| MachineActor.Machine.ReplyShuttingDown | daemon/internal/state/machine.go:197-224 | what a drained command is answered with |
| MachineActor.Machine.DrainOnShutdown | daemon/internal/state/machine.go:176-195 | the loop empties the queue and does to it, in order, what the drain function says |
| StateSubscribers.Subscribers.Subscribe | daemon/internal/state/api.go:27-43 | a new id with an empty queue; everyone else untouched |
| StateSubscribers.Subscribers.Unsubscribe | daemon/internal/state/api.go:35-41 | ends delivery, keeps what is queued |
| StateSubscribers.Subscribers.Broadcast | daemon/internal/state/api.go:48-62 | each subscriber's queue gets the state if it has room; nobody else's changes |
| StateSubscribers.Subscribers.Receive | daemon/internal/state/api.go:27-43 | takes the oldest queued state, and touches no other queue |
| StateSubscribers.ClientFollows | daemon/internal/state/api.go:27-62 | over every history of everybody's calls a client's queue and what it has received are what its own offers and reads give |
| StateSubscribers.FeedIsFaithful | daemon/internal/state/api.go:48-62 | a client sees what was sent, in order, minus the drops, and sees all of it iff its queue was never found full |
| StateSubscribers.NothingLostIff | daemon/internal/state/api.go:48-62 | nothing is ever dropped iff the client is fewer than sixteen states behind at every broadcast |
| StateSubscribers.SentIsPosted | daemon/internal/state/machine.go:230-243 | along every run, whatever clients do in between, the states broadcast are the states posted, in order |
| StateSubscribers.SubscriberSegment | daemon/internal/state/api.go:45-62 | a client that subscribes at any point of a run, stays, and never had a full queue, has received or queued a contiguous, legal stretch of the posted trace up to its end |
| Truncate.Truncate | daemon/internal/state/handlers.go:257-266 | the text itself if short enough; else a prefix cut at the last byte not after n that starts a rune, plus the ellipsis |
| Truncate.CutKeepsWholeRunes | daemon/internal/state/handlers.go:261-265 | on well-formed UTF-8 the prefix is whole runes, and the next one would not fit |
| Truncate.TextCut | daemon/internal/state/handlers.go:257-266 | a Unicode text that is cut reads back as its longest beginning of at most n bytes and an ellipsis |
| TokenBucket.Bucket.constructor | daemon/internal/ipc/ratelimit.go:22-29 | a full bucket |
| TokenBucket.Bucket.TryTake | daemon/internal/ipc/ratelimit.go:32-44 | extends the legal history of calls by one; the stored level is the level of that history |
| TokenBucket.Exact | daemon/internal/ipc/ratelimit.go:35-39 | after refill the level is exactly the least, over all instants so far, of a full bucket plus the inflow since, minus what was accepted since |
| TokenBucket.LevelInRange | daemon/internal/ipc/ratelimit.go:39-43 | the level stays between 0 and the capacity |
| TokenBucket.WindowBound | daemon/internal/ipc/ratelimit.go:32-44 | from any call to any later one, at most a bucketful plus the inflow between them is accepted |
| TokenBucket.RefusedIffWindowFull | daemon/internal/ipc/ratelimit.go:40-42 | a call is refused iff accepting it would overfill the window from some instant on |
| SupervisorRing.RingBuf.Write | daemon/internal/supervisor/ringbuf.go:12-30 | after any writes the buffer stands for exactly the last cap bytes of all of them; capacity 0 becomes 4096 |
| SupervisorRing.RingBuf.String | daemon/internal/supervisor/ringbuf.go:32-42 | returns the last cap bytes ever written, in order, or all if fewer |
| SupervisorRing.UnrollPush | daemon/internal/supervisor/ringbuf.go:25-26 | overwriting the oldest byte drops it and appends the new one |
| ValidateRing.RingBuf.Write | daemon/internal/xrayconfig/ringbuf.go:23-58 | the in-place copies do what the three-case function on buffer values says |
| ValidateRing.RingBuf.String | daemon/internal/xrayconfig/ringbuf.go:61-69 | the bytes from the oldest position round to it |
| ValidateRing.KeepsNewest | daemon/internal/xrayconfig/ringbuf.go:23-58 | from every state a write keeps as many bytes as fit, never more than cap, and ends with the newest chunk |
| ValidateRing.AgreesExactly | daemon/internal/xrayconfig/ringbuf.go:47-57 | a write keeps the last cap bytes iff it is aligned (big, not yet full, or oldest byte at 0) or the survivors equal their own rotation |
| ValidateRing.AgreesForAllContents | daemon/internal/xrayconfig/ringbuf.go:47-57 | for a full buffer of any contents, agreement holds iff the chunk is at least cap long or the oldest byte is at 0 |
| ValidateRing.AlignedHistory | daemon/internal/xrayconfig/ringbuf.go:23-69 | a history of aligned writes leaves exactly the last cap bytes of everything |
| ValidateRingHistory.HistoryIff | daemon/internal/xrayconfig/ringbuf.go:23-69 | a sequence of chunk lengths leaves the last cap bytes for all contents iff, since the last chunk of at least cap bytes, every write found the oldest byte at index 0 |
| ValidateRing.ThirdShortWriteDrifts | daemon/internal/xrayconfig/ringbuf.go:47-57 | three short writes after which a six-byte buffer does not hold the last six bytes |
| UlidText.TextRoundTrip | daemon/internal/xrayconfig/store.go:37-43 | an id's text parses to that id, for all 128-bit ids |
| UlidText.TextReadBack | daemon/internal/xrayconfig/store.go:37-43 | whatever parses fits 128 bits and is that id's text up to letter case |
| UlidText.TextIff | daemon/internal/xrayconfig/store.go:37-43 | a text is read as an id iff it is, letter case apart, that id's own text |
| UlidText.DigitsAre | daemon/internal/xrayconfig/store.go:37-43 | digits are those of Crockford's base 32 in its order, in either letter case |
| UlidText.TimeIsPrefix | daemon/internal/xrayconfig/store.go:218-222 | the time shown for an id is what the first ten digits of its text spell |
| Registry.NamesApart | daemon/internal/xrayconfig/store.go:81-85 | a published name is listed under its own id, a staged one never |
| Registry.NamesUnique | daemon/internal/xrayconfig/store.go:253-255 | no two ids share a published or staged name, and no published name is a staged one |
| Registry.OwnNameIffUpper | daemon/internal/xrayconfig/store.go:205-213 | a listed name is the file of the id it is listed under iff it is upper case |
| RegistrySteps.StepKeeps | daemon/internal/xrayconfig/store.go:107-166 | every step of any interleaved Add, and every Remove, keeps the registry's invariant |
| RegistryTheorems.ListedIsVetted | daemon/internal/xrayconfig/store.go:107-166 | in every run each listed entry passes both safety checks, and was approved before the run or holds the very bytes xray accepted at an earlier step under that id |
| RegistryTheorems.PublishedIsStable | daemon/internal/xrayconfig/store.go:195-225 | a listed name has the same bytes whenever it is listed |
| RegistryList.ThereIffNotRemoved | daemon/internal/xrayconfig/store.go:230-240 | a published entry is there at a later step iff nobody removed it in between |
| RegistryList.SpreadListIff | daemon/internal/xrayconfig/store.go:195-225 | a List spread over the steps of a run fails iff a scanned name is removed before its read, and otherwise returns what it would have read at the moment of the scan |
| RegistryTheorems.QuotaBound | daemon/internal/xrayconfig/store.go:118-124 | with k Adds at a time at most MaxConfigs - 1 + k entries are ever published |
| RegistryQuota.QuotaBoundIsReached | daemon/internal/xrayconfig/store.go:118-124 | for every k, every positive quota (as far as there are ids) and any one config that passes the safety checks there is a run that reaches that bound |
| RegistryTheorems.RegistryIsItsHistory | daemon/internal/xrayconfig/store.go:107-166 | what is published is what was there, plus successful Adds, minus Removes; with no Add in progress nothing is staged but files whose unlink failed |
| RegistryTheorems.OnlySuccessPublishes | daemon/internal/xrayconfig/store.go:159-166 | a step of an Add changes what is published iff it returns success, and then by its own entry |
| RegistryErrors.AnswerIsItsObstacle | daemon/internal/xrayconfig/store.go:107-166 | in every run each answered Add has a beginning, and is refused with an error iff between that beginning and its answer this very call met an obstacle that asks for this error: a failed check, a full quota, a failed file operation or id, or xray's verdict |
| RegistryErrors.StepMeets | daemon/internal/xrayconfig/store.go:140-163 | an obstacle is answered with its own error, at once or after the staged file is dealt with, however the unlink goes |
| ConfigStore.Store.CountConfigs | daemon/internal/xrayconfig/store.go:269-289 | the loop counts exactly the listed names |
| ConfigStore.Store.List | daemon/internal/xrayconfig/store.go:195-225 | one entry with id, digest and time for each listed name, none twice, none else; an error iff reading the directory or a listed file fails |
| ConfigStore.Store.Remove | daemon/internal/xrayconfig/store.go:230-240 | removes that entry only; tells a missing entry from a failed unlink, and changes nothing in either case |
| ConfigStore.Store.Add | daemon/internal/xrayconfig/store.go:107-166 | alone, does what the interleaved steps do; succeeds iff every check and step does; else answers with the error of the first obstacle in the order of the code, each error iff that obstacle is the first; a refusal with a working unlink changes nothing |
| SocksDialer.RoundTrip | daemon/internal/health/dialer.go:59-62 | any SOCKS message followed by anything reads back as itself and stops right behind itself |
| SocksDialer.ReadBack | daemon/internal/health/dialer.go:68-97 | only the encoding of a message parses as that message |
| SocksDialer.LayoutIff | daemon/internal/health/dialer.go:56-97 | a byte string is the encoding of a message iff it has the layout of sections 4 and 6 of RFC 1928, position by position |
| SocksDialer.AtoiIff | daemon/internal/health/dialer.go:25-28 | a port is read iff it is an optional sign and at least one digit |
| SocksDialer.AtoiReads | daemon/internal/health/dialer.go:25-28 | the decimal form of every number is read as that number, with a zero or plus in front too, and a minus negates it |
| SocksDialer.RequestSaysTarget | daemon/internal/health/dialer.go:59-62 | for every host of at most 255 bytes and port 1 to 65535 the request decodes under section 4 of RFC 1928 to CONNECT, DOMAINNAME, that host and port |
| SocksDialer.WelcomeIs | daemon/internal/health/dialer.go:47-97 | the streams on which the dial succeeds are exactly: method reply, any success reply of section 6, and the bytes left for the caller |
| SocksDialer.ReadReply | daemon/internal/health/dialer.go:68-97 | succeeds iff a success reply is at the front, and consumes exactly that |
| SocksDialer.Handshake | daemon/internal/health/dialer.go:47-97 | the request goes out only after the server took no-auth; every failure closes the connection |
| SocksDialer.Dial | daemon/internal/health/dialer.go:20-99 | returns a connection iff target, dial, writes and both replies are good, with exactly greeting and request sent and the rest of the stream untouched |
| FrameReader.FrameReader.Drain | app/src/main/services/daemon-client.ts:322-330 | hands over the decoded, trimmed, non-blank lines of the buffer in order and keeps what follows the last newline; each round shrinks the buffer |
| FrameReader.FrameReader.OnData | app/src/main/services/daemon-client.ts:301-304 | the same for buffer plus chunk |
| FrameReader.SplitUnique | app/src/main/services/daemon-client.ts:322-330 | lines and rest are the one way to cut a stream at its newlines |
| FrameReader.ChunkingDoesNotMatter | app/src/main/services/daemon-client.ts:300-330 | for every cut of a stream into chunks the lines handed over and the rest kept are those of the whole stream |
| FrameReader.ReadAll | app/src/main/services/daemon-client.ts:300-330 | a fresh reader fed chunk by chunk ends with the frames and the rest of the whole stream |
| FrameReader.LeftoverSpoilsIff | app/src/main/services/daemon-client.ts:112 | what an earlier connection left in the buffer leaves the frames of every later stream alone iff it decodes to white space only |
| FrameReader.Utf8LeftoverSpoilsIff | app/src/main/services/daemon-client.ts:322-330 | the same for UTF-8 with replacement, with no condition on the decoder left |
| FrameReader.FrameIs | app/src/main/services/daemon-client.ts:325-328 | a line hands over a text iff that text is not empty and is the decoded line without the white space around it, and hands over nothing iff the line is blank |
| FrameReader.Messages | app/src/main/services/daemon-client.ts:300-330 | whatever one-line messages without white space at their ends the other side writes in UTF-8, and however the stream is cut, a fresh reader hands over exactly those messages |
| Utf8.TextSurvives | app/src/main/services/daemon-client.ts:325 | the decoder gives every text of Unicode characters back from its UTF-8 form |
| Utf8.DecodeJoins | app/src/main/services/daemon-client.ts:325 | bytes that end on a whole character do not disturb the decoding of what follows |
| Utf8.CleanReadsBack | app/src/main/services/daemon-client.ts:325 | bytes in which nothing is replaced are the UTF-8 form of the text they read as, so no ill-formed input goes unseen |
| JsText.TrimBlank | app/src/main/services/daemon-client.ts:325-327 | trimming leaves nothing iff there was nothing but white space |
| JsText.TrimBlankPrefix | app/src/main/services/daemon-client.ts:325-327 | white space in front of a text makes no difference to its trimming |
| JsText.TrimIff | app/src/main/services/daemon-client.ts:325 | trimming gives the one text with no white space at its ends that is left when white space around it goes |
| AppObjects.MockEngine.Connect | app/src/main/engine/mock-engine.ts:23-36 | cancels the timer, reports connecting into the store before returning, then sets the timer |
| AppObjects.MockEngine.Disconnect | app/src/main/engine/mock-engine.ts:38-41 | cancels the timer and reports disconnected |
| AppObjects.MockEngine.TimerFires | app/src/main/engine/mock-engine.ts:27-35 | reports connected for the config captured when the timer was set |
| AppObjects.AppStore.OnState | app/src/main/store/app-store.ts:46-57 | takes an engine event over and broadcasts it, or drops it if its config is gone |
| AppObjects.AppStore.Dispatch | app/src/main/store/app-store.ts:64-86 | every command does to store, engine, prefs and broadcast history what the model says, re-entrant broadcasts in their place |
| AppObjects.AppStore.OnSystemThemeChanged | app/src/main/store/app-store.ts:88-94 | follows the system's theme only if asked to, and only on a change |
| AppTheorems.StepKeeps | app/src/main/store/app-store.ts:64-222 | every command, timer and theme change keeps store, engine, prefs and all snapshots consistent |
| AppTheorems.EverySnapshotIsConsistent | app/src/main/store/app-store.ts:46-57 | in every run every snapshot ever broadcast, inside a command or after it, has its active config and a connection only to that config |
| AppTheorems.PendingTimerIsActive | app/src/main/engine/mock-engine.ts:23-53 | in every run the timer is pending iff connecting, for the active config, and engine and store agree |
| AppTheorems.ToggleKeeps | app/src/main/store/app-store.ts:112-133 | in every consistent state a toggle keeps consistency and does not throw |
| AppEngines.ToggleThrowsIff | app/src/main/store/app-store.ts:112-133 | in any state at all a toggle throws iff the config it would reconnect to is missing |
| AppEngines.ToggleThrowsOnlyAfterFailure | app/src/main/store/app-store.ts:118-123 | in every run under an engine that may report any state, a toggle throws iff the connection has failed on a config deleted since, and then the engine has reported a failure |
| AppEngines.ToggleCanThrow | app/src/main/store/app-store.ts:118-123 | from every start with two configs: failure on one, selection of the other, deletion of the first, and the toggle throws |
| AppTheorems.ThrowsIffRefused | app/src/main/store/app-store.ts:98-222 | a command throws iff its id is unknown or its config invalid, and then nothing changed and nothing was sent |
| AppTheorems.UpdateKeepsIdentity | app/src/main/store/app-store.ts:154-178 | whatever a patch carries, an update touches one config only, and neither its id nor its date of addition |
| AppTheorems.DuplicateCopies | app/src/main/store/app-store.ts:196-210 | a copy goes to the front under the new id and differs from its source only in id, name, date and last use |
| AppTheorems.HostOkIs | app/src/main/store/app-store.ts:25 | the host check accepts exactly a colon-free name, a colon and a run of digits |
| AppTheorems.DeleteUndoes | app/src/main/store/app-store.ts:180-210 | deleting a fresh copy, or an added config that was not activated, restores everything but the broadcast history |
| AppTheorems.SelectMovesConnection | app/src/main/store/app-store.ts:98-110 | selecting while live moves connection and timer to the selected config |
| AppEffects.ToggleDoes | app/src/main/store/app-store.ts:112-133 | in a consistent state: live is taken down with one snapshot and no timer; otherwise the active config starts, with one snapshot and a timer that brings it up; without one (or an empty one) nothing changes at all |
| AppEffects.EventDoes | app/src/main/store/app-store.ts:46-57 | whatever an engine reports about a config that is there, or Disconnected, is shown and told once; a report about a config that is gone changes nothing a window sees |
| AppEffects.ToggleEnds | app/src/main/store/app-store.ts:113-117 | in any state a toggle while connected, connecting or disconnecting takes the connection down |
| AppEffects.ToggleRetries | app/src/main/store/app-store.ts:118-123 | in any state a toggle after a failure connects to the failed config if it is there |
| AppEffects.TimerDoes | app/src/main/engine/mock-engine.ts:26-35 | the timer shows its config connected, with its latency or 50 and its host up to the first colon |
| AppEffects.SelectDoes | app/src/main/store/app-store.ts:98-110 | stamps that config only as used now and makes it active; moves the connection iff one is live |
| AppEffects.AddDoes | app/src/main/store/app-store.ts:135-152 | puts the config in front under the new id and date; makes it active iff asked to, and then moves a live connection to it |
| AppEffects.UpdateDoes | app/src/main/store/app-store.ts:154-178 | is refused iff the patch carries url, proto, host or name and the result is invalid; otherwise each editable field is the patch's where it carries one and the old one where not |
| AppEffects.DeleteDoes | app/src/main/store/app-store.ts:180-194 | drops that one config; selection and connection go iff it was the active one |
| AppEffects.DuplicateDoes | app/src/main/store/app-store.ts:196-210 | the copy in front with new id, name, date and no last use, and nothing else changed |
| AppEffects.ThemeDoes | app/src/main/store/app-store.ts:212-222 | the theme follows the preference, and the system only where the preference says so; a system change is told iff it changes the theme |
| AppEffects.ComplaintIs | app/src/main/store/app-store.ts:233-252 | a config is accepted iff all five fields are as they should be, and else the first that is not is named |
| AppEffects.ThrownIs | app/src/main/store/app-store.ts:98-222 | a command about a config that is not there throws that and changes nothing; an invalid addition throws its first bad field |
| AppEffects.WindowsAreCurrent | app/src/main/store/app-store.ts:46-230 | in every run, under any engine, the last snapshot sent is the present state, and without any the state is the initial one |

## Left out

- Starting processes, signals and xray itself: a start, a stop and an exit are steps on a list of children; "stopped" means that the stop entry returned, because its error is ignored, and the child may still be alive.
- Cleanup entries other than stop-xray: the daemon pushes no other; an entry that panics is not modelled.
- Timestamps, free-text messages, health snapshots, logging, and the writing of state.json.
- TunnelSystem.Moved: a goroutine's look at the context before its post is taken on arrival; one that looks later and fails behaves like one that gives up its send. Switch calls look in a step of their own.
- TunnelTheorems.Reachable: results that speak of the time before shutdown end where the shutdown command is handled or the context is cancelled; the exactly-one-reply and shutdown results go on to the end.
- The event loop as one non-terminating method: its two arms and the drain are methods, and the loop is the transition system's choice between them.
- MachineActor.Machine.DisconnectArmed: the goroutine's stack is named by the child it stops, not passed on as an object.
- The generation counter's 64-bit width.
- IsActive, GetStatus's health field, and the check-then-remove in the IPC layer, whose two steps are not atomic.
- StateSubscribers.Subscribers.Broadcast: the copy of the list of targets and the sends are one step.
- TokenBucket.Bucket.TryTake: time and tokens are real numbers, so floating-point rounding is not covered; the clock does not run back.
- The temporary files of renameio, whose names are never listed, and failures half-way through a write.
- The ULID library is not part of this model: its text form is modelled from the ULID format, and a fresh id is one that was not handed out before.
- checkPathSafety, checkInboundSafety and xray's own test are unconstrained predicates and verdicts; validateWaiters gives no bound and is left out.
- ConfigStore.Store.List: the loop runs undisturbed; the call spread over other calls' steps is RegistryList.SpreadList, whose scan of the directory is one step.
- SocksDialer.Dial: SplitHostPort is a parameter; a connection is the bytes its peer will send and the number of writes that go through.
- FrameReader.FrameReader.Drain: the decoder is a parameter, and Utf8.Decode one that meets its conditions; a string is a sequence of Unicode characters, not of UTF-16 units; JSON parsing, pending calls, timeouts, the heartbeat and listeners that throw are not modelled.
- AppObjects.AppStore.Dispatch: listeners of the change event do not call back into the store, new UUIDs are new, and a patch never carries an explicit undefined.
- Engines other than MockEngine: the snapshot invariant is not claimed for them; AppEngines covers when the toggle throws, and AppEffects.WindowsAreCurrent what was sent last.
- WorkerSteps.Allowed: the dials that fail while waiting for the inbound are part of the wait; Handshake is the exchange on the connection that ends it. Apart from the looks at the context that are modelled, a cancelled worker may be slower or luckier than the code would let it be.
- The IPC server's sockets and authentication, the health probe loop, the URL parser, the config builder, the renderer and the Electron shell.
