# Verified model of the agent-run platform

This project models the parts of the repository in which state, interleaving and failure meet:
how a backend run launches, waits for and tears down an agent; how the event bus hands out and
closes channels; how tokens and statuses live in memory; and the sequence transformations of the
story importer, the pipeline editor, the log consumer and the live view.

`dafny verify dfyconfig.toml` checks the whole project.

## How it is organised

| modules | what they model |
|---|---|
| `StatusStore`, `TokenStore` | the two in-memory stores: the objects with their fields, and every interleaving of their atomic regions |
| `AgentRunner`, `AgentProcess` | the agent side: the runner as a state machine, and the imperative runner and its retrying client, each run of which is proved to be a run of that machine |
| `CallbackWait`, `CallbackSystem`, `CallbackDelivery` | `awaitCallbackOrCrash` with its goroutines and channels, the end-to-end system of any number of runs with their tokens, over a network that loses, delays, reorders and duplicates POSTs, and that reports can get through it |
| `DockerDaemon`, `Containers`, `Sidecars`, `DockerRuntime`, `AgentRun` | a daemon whose teardown calls fail only for its own reasons, and on top of it the container manager, the sidecar manager, the substrate adapter and `Execute` |
| `SidecarGC` | garbage collection of orphan networks and finished command containers |
| `EventBus`, `EventBusRuns` | the bus as an object, and every interleaving of subscribe, cleanup, close, dispatch and consumption |
| `MarkdownBlocks`, `MarkdownPreview`, `Text` | the importer's block splitter and the frontend's independent preview of it |
| `PipelineConfig`, `LogConsumer` | flat-index edits over nested groups, log consumption |
| `RuntimeStream`, `RuntimeEvents` | the live event reducer, and what each event name does |

Sequential code that updates state is written as classes and loops and proved against functions of
the old state. Concurrent code is a step function `Next(s, action)` over the original's atomic
regions: an action that is not enabled changes nothing, so "for all action sequences" ranges over
every interleaving. Code that talks to Docker runs sequentially against `Daemon`; before every call
it lets `Interfere` perform any number of daemon steps of other runs, each bound to its own run by
the preconditions of the daemon's methods. `Daemon.Valid`, which every step keeps, is the run
isolation invariant. What the daemon answered to a run's creates, starts, waits and inspections,
which sleeps were completed, and when a half-connected create was to be undone is in
`ContainerManager.journal`; outcomes are stated against it. `ContainerManager.context` says at which
reading of the clock the caller's context is done, if ever; calls on it fail from then on. A call the
daemon turns down for reasons of its own is on record in `Daemon.refused`, so that a failure can be
traced to its cause.

## What the proofs found

- A run's resources are conserved, whatever fails, with two exact exceptions
  (`AgentRun.AgentRunAction.Execute`). The sidecar context is keyed by service name, so when services
  of an environment share a name all containers of that name but the last are forgotten, and stay
  behind with the run network they hold. And the rollback inside `Create`, unlike every other
  teardown, runs on the caller's context, so a dual-homed agent whose connect to the run network fails
  stays behind, on the shared network alone, if and only if the context is done by the time that is to
  be undone (`Containers.UndoneUnlessDone`, `DockerRuntime.CancelledCreateLeavesTheAgent`); when the
  context is done before that connect it is sure to stay
  (`Containers.ContainerManager.ConnectExtras`). With distinct service names, and with run isolation
  or a context that is never done, nothing is left.
- A run fails before its wait only for a cause that can be named: an input that was not there, a mint or
  a command that failed, a sidecar that did not get ready, a call the daemon refused, or a context that
  is done (`Execute` again).
- A minted callback token still validates after exactly the runs that never reach a wait, until it
  expires (`Execute` again).
- A dispatch can send on a closed channel, exactly when the subscriber's own cleanup ran between the
  snapshot and the send, and never because of `Close` (`EventBusRuns.SendFaultsOnlyAfterOwnCleanup`,
  `EventBusRuns.CleanupDuringDispatchFaults`).
- On documents both sides tokenise alike, the preview pairs the same chunks as the importer if and
  only if `MarkdownPreview.Agreeable` holds; a preamble before the first delimiter breaks it. The texts
  agree in one case more: when every paired chunk merely repeats the preamble
  (`MarkdownPreview.PreviewShowsTheBlocksExactlyWhen`).
- Pausing or resuming a finished run keeps its finish time, so "terminal" and "has a finish time"
  coincide for steps but not for runs (`RuntimeStream.FinishedSinceLastStart`); the REST seeding can
  set a terminal status without a finish time, exactly when `RuntimeStream.HydrationKeepsFinishTimes`
  says.

## Model

| member | source | states |
|---|---|---|
| `AgentRun.AgentRunAction.Execute` | backend/internal/adapter/action/agent_run.go:156-320 | Conservation over a whole run under any failures and any interference: exactly the sidecars whose name a later service reused are left behind, one fewer per name than the journal shows launched, and the one container of an agent create that the journal shows cut off between its two networks with the context done when it was to be undone; so nothing has changed with distinct names, no network before, and isolation or a context never done. The journal ends with exactly the commands run and the agent's create and start, on the networks meant for them, all sidecars before the first command and all commands before the agent; the wait is reached iff the agent was launched. No false failure: a wait is missed only if story, command image, token mint or agent environment failed, a command that ran did not exit 0, the daemon refused a call, the context is done, or the journal ends with an inspection that ruled a sidecar out or was overdue. The error is nil iff the wait ended with code 0, and in callback mode the agent launched with this token, when it was minted, then pushed in the history the wait belongs to. Whatever everyone else does to the token store, the run's token validates afterwards iff it was minted, no wait was reached and it has not expired. |
| `AgentRun.ZeroMeansPushed` | backend/internal/adapter/action/agent_run.go:1114-1122 | A wait that returned 0 in a history of the callback system means that in it the step was launched with this token at the time it was minted, the last provider result was 0, the changes were pushed and that was reported. |
| `AgentRun.AgentRunAction.RunWithSidecars` | backend/internal/adapter/action/agent_run.go:230-320 | The same accounting, and the same causes of failure, for a run that launches sidecars or isolates, from the launch to the deferred cleanup. |
| `AgentRun.AgentRunAction.RunEnvironmentCommands` | backend/internal/adapter/action/agent_run_commands.go:86-129 | The journal shows exactly the runs of a prefix of the present, non-blank commands in the order build, migrate, seed, test; all but the last succeeded, on success all are run and all did, on failure the last did not; no container is left. It fails only for a missing image or clone URL, a command that did not exit 0, a refusal, a context that is done or a network that is not there. |
| `AgentRun.PresentExactly` | backend/internal/adapter/action/agent_run_commands.go:119-123 | The commands that are run are those of build, migrate, seed and test, in this order, that are given and have a character that is not whitespace. |
| `AgentRun.AgentRunAction.RunOneCommand` | backend/internal/adapter/action/agent_run_commands.go:153-217 | Success iff the journal shows the command's container created, started and waited for with exit code 0; whatever create, start or wait do, the container is gone afterwards. |
| `AgentRun.AgentRunAction.DispatchViaRuntime` | backend/internal/adapter/action/agent_run.go:493-566 | The deferred Stop undoes the launch on every path that launched; only a reached wait revokes the token, and it is reached iff the journal shows the agent created and started; it is missed only if the agent environment could not be built, the daemon refused a call or the context is done; nil error iff exit code 0; nothing is left but the container of a create cut off with the context done. |
| `AgentRun.AgentRunAction.DispatchDirectly` | backend/internal/adapter/action/agent_run.go:284-320 | The same for the legacy path, whose cleanup is deferred before the start. |
| `AgentRun.AgentRunAction.PrepareCallback` | backend/internal/adapter/action/agent_run.go:704-733 | Fails iff it is callback mode and the configured store does; mints iff it is callback mode and the store works; then one token, with the two-hour expiry, and no other is touched. |
| `DockerRuntime.Runtime.Launch` | backend/internal/adapter/docker/runtime.go:77-129 | On success one started agent container, on the run network alone under isolation and on shared plus run network otherwise; a container that would not start is torn down; on failure something is left iff the journal shows a dual-homed create cut off and its undoing tried with the context done, and then exactly that container. |
| `DockerRuntime.Runtime.Stop` | backend/internal/adapter/docker/runtime.go:152-191 | Removes exactly the handle's container. |
| `DockerRuntime.AgentOptsEndpoints` | backend/internal/adapter/docker/runtime.go:88-102 | The options built for either isolation setting respect isolation and yield the intended endpoints. |
| `DockerRuntime.CancelledCreateLeavesTheAgent` | backend/internal/adapter/docker/container_manager.go:148-157 | A concrete dual-homed agent: its create is cut off at time 5 and its container stays on the shared network iff the context is done by then. |
| `Sidecars.SidecarManager.Launch` | backend/internal/adapter/docker/sidecar_manager.go:183-236 | All-or-nothing: on error the view is as before but for what repeated names left behind - only sidecars, one fewer per name than launched; on success as many containers per name as there are services of that name - one each when names are distinct - all started, each shown ready by the journal, on the run network only under their service name, addressed by that name, with the API attached iff isolation and an API name are configured. It fails only for a refusal, a context that is done, or a container the journal shows ruled out or overdue. |
| `Sidecars.LostAsLaunched` | backend/internal/adapter/docker/sidecar_manager.go:265 | What the name-keyed records lose, counted exactly per name; nothing iff names are distinct. |
| `Sidecars.SidecarManager.LaunchServices` | backend/internal/adapter/docker/sidecar_manager.go:220-228 | A failed service leaves a context that covers every container made so far; it fails only for a refusal, a context that is done, a missing network, or a container the journal shows ruled out or overdue. |
| `Sidecars.SidecarManager.CreateSidecar` | backend/internal/adapter/docker/sidecar_manager.go:240-266 | A created container is recorded before its start is tried, so a rollback reaches it. |
| `Sidecars.RecordLosesOnlyTheOverwritten` | backend/internal/adapter/docker/sidecar_manager.go:265 | Recording under a name loses exactly the container recorded there before. |
| `Sidecars.SidecarManager.WaitReady` | backend/internal/adapter/docker/sidecar_manager.go:286-321 | By the journal: at most ceil(timeout/interval)+1 inspections, one that errs included, all at times within the wait; success only after healthy, or running followed by a completed grace delay; failure only after an inspection that erred or said unhealthy or not running, or with the context done in a sleep, or past the deadline; everything before that last inspection said starting or not yet decided. |
| `Sidecars.GraceIsSpent` | backend/internal/adapter/docker/sidecar_manager.go:300-315 | A container accepted as merely running has cost the wait a full grace delay on the clock. |
| `Sidecars.PollsLeft` | backend/internal/adapter/docker/sidecar_manager.go:286-321 | The arithmetic of the bound: while the deadline is ahead another poll fits in it. |
| `Sidecars.SidecarManager.Sleep` | backend/internal/adapter/docker/sidecar_manager.go:324-336 | A completed sleep advances the clock by at least its duration and began with the context not done; one that fails ends with the context done. |
| `Sidecars.SidecarManager.TeardownContainers` | backend/internal/adapter/docker/sidecar_manager.go:360-377 | Removes exactly the containers still known by name. |
| `Sidecars.SidecarManager.Rollback` | backend/internal/adapter/docker/sidecar_manager.go:342-357 | Containers, API endpoint, then network: what is left is the base plus lost containers, and the network only if they hold it. |
| `Sidecars.SidecarManager.Cleanup` | backend/internal/adapter/docker/sidecar_manager.go:404-423 | The same on the success path; an empty context is left alone. |
| `Sidecars.RestoredMeansUnchanged` | backend/internal/adapter/docker/sidecar_manager.go:404-423 | With nothing lost and no network before, a teardown restores the view exactly. |
| `Containers.ContainerManager.Create` | backend/internal/adapter/docker/container_manager.go:67-163 | All-or-nothing over the primary and every extra network, unless an extra connect fails and the context is done when the container is to be removed again: then exactly that container stays, with the networks connected so far. On a context that is done to begin with nothing is made; it fails only for a refusal, a context that is done or a missing run network. |
| `Containers.ContainerManager.ConnectExtras` | backend/internal/adapter/docker/container_manager.go:142-160 | Given which connect the daemon refuses and when the context is done: the loop connects just the networks before the first connect that is refused, lacks its network or comes too late, and fails only for such a connect; the container is gone after a failure iff the context was not done at the removal, and it is sure to stay when the context was done before the loop. |
| `Containers.UndoneUnlessDone` | backend/internal/adapter/docker/container_manager.go:148-157 | A create cut off at an extra connect leaves the view as it was iff the context was not done when its removal was tried; else exactly the half-connected container is there. |
| `Containers.ContainerManager.CreateNetwork` | backend/internal/adapter/docker/container_manager.go:289-327 | The run's network exists afterwards iff it did before or the call succeeded; nothing else changes. |
| `Containers.ContainerManager.RemoveNetwork` | backend/internal/adapter/docker/container_manager.go:331-345 | Succeeds iff no container and no API endpoint is attached; an absent network is success. |
| `Containers.ContainerManager.ConnectContainer` | backend/internal/adapter/docker/container_manager.go:352-380 | Attaches one more endpoint or changes nothing; an endpoint already there is kept with its alias. |
| `DockerDaemon.Daemon.OnlyOwnContainersAttached` | backend/internal/adapter/docker/runtime.go:88-102 | Isolation: in every valid daemon state a run's network is in use iff one of that very run's containers is attached. |
| `DockerDaemon.Daemon.Interfere` | backend/internal/adapter/docker/sidecar_manager.go:201-228 | Any number of steps of other runs keep isolation and leave this run's view alone. |
| `DockerDaemon.Daemon.NetworkRemove` | backend/internal/adapter/docker/container_manager.go:331-345 | The daemon refuses while any endpoint is attached. |
| `CallbackSystem.OutcomeIsAuthoritative` | backend/internal/adapter/action/agent_run.go:1039-1122 | In every run of the system: a returned code is the one the agent reported and the first status stored for that step - the provider's own last code if that is a failure, else 0 for pushed changes and 1 for an error; a crash is a real non-zero exit; any other return is the wait's own timeout or cancellation. |
| `CallbackSystem.NoFalseSuccess` | agent-runtime/internal/runner/runner.go:39-110 | Over a lossy, duplicating network, a nil return implies the provider's last result had exit code 0, the agent pushed, it reported once, with code 0, and posted between one and three times. |
| `CallbackSystem.NothingAcceptedAfterReturn` | backend/internal/adapter/action/agent_run.go:1014-1041 | In any continuation after the wait returned - sweeps, expiry and other requests included - its token never validates again, no late or duplicate POST for the step reaches the status store, what is still stored for the step comes from handlers under way at the return, at most once each, and the outcome stays. |
| `CallbackSystem.AdmittedExactlyWhile` | backend/internal/api/middleware/internal_auth.go:18-43 | In every run a step's POSTs pass authentication iff its wait has not returned and its token has not expired. |
| `CallbackSystem.MovesAreBounded` | backend/internal/adapter/action/agent_run.go:1039-1109 | In any run, the moves of the method and its two goroutines number at most eleven. |
| `CallbackSystem.OwnMoveIsEnabled` | backend/internal/adapter/action/agent_run.go:1039-1109 | Once two hours have passed on the clock since the wait began, the context is done or a non-zero exit has been seen, a move of the method's own - not of its environment - is enabled until it returns. |
| `CallbackSystem.OthersDoNotDisable` | backend/internal/adapter/action/agent_run.go:1039-1109 | No event of anyone else takes an enabled move of the method away. |
| `CallbackSystem.ReturnsOnceTimeIsUp` | backend/internal/adapter/action/agent_run.go:1039-1109 | Termination: from any reachable state with the two hours passed or the context done, every fair schedule of eleven rounds, with anything else in it, ends with the method returned. |
| `CallbackSystem.ReturnsByItsOwnMoves` | backend/internal/adapter/action/agent_run.go:1039-1109 | And such a schedule exists: at most eleven of its own moves, all effective, end in its return. |
| `CallbackSystem.CrashOnlyWithoutStatus` | backend/internal/adapter/action/agent_run.go:1076-1109 | In every run and at every next event, a crash verdict comes only from the final look, with nothing in statusCh and no status sent, for a non-zero code the process really exited with. |
| `CallbackSystem.ExitWithoutStatusIsACrash` | backend/internal/adapter/action/agent_run.go:1076-1109 | And it is declared: once a non-zero exit has been seen, every fair schedule of eleven rounds, however far the timer is, ends with the method returned, with the crash verdict for that code unless a status was sent. |
| `CallbackSystem.CrashByItsOwnMoves` | backend/internal/adapter/action/agent_run.go:1076-1109 | From any state with the process exited non-zero and no status sent, at most six steps of watcher and method alone end in the crash verdict for that code. |
| `CallbackSystem.TimerRunsTwoHours` | backend/internal/adapter/memory/callback_status_store.go:35-52 | The wait's timer is set when WaitForStatus begins, for two hours. |
| `CallbackDelivery.DeliveredStatusEndsTheWait` | backend/internal/api/handler/agent_callback_handler.go:153-172 | From any reachable state in which a step's POST would be admitted and its method is still in a select and its WaitForStatus not over, at most nine events end in the return of the code the POST carries. |
| `CallbackDelivery.EveryCodeCanBeReturned` | backend/internal/adapter/action/agent_run.go:1039-1122 | For every exit code there is a run of the whole system, from the start, in which the wait returns it. |
| `CallbackSystem.NoSendBlocks` | backend/internal/adapter/action/agent_run.go:1039-1075 | In every run neither goroutine ever blocks on its send. |
| `CallbackSystem.RunKeepsInv` | backend/internal/adapter/action/agent_run.go:1039-1109 | The system invariant holds over every run. |
| `CallbackWait.SendsNeverBlock` | backend/internal/adapter/action/agent_run.go:1039-1075 | The local half of that: a goroutine that comes to send finds its capacity-1 channel empty. |
| `CallbackWait.CrashIsGenuine` | backend/internal/adapter/action/agent_run.go:1076-1109 | The local half of the crash verdict; a zero exit or a failed Wait never leads to one. |
| `CallbackWait.NeverStuck` | backend/internal/adapter/action/agent_run.go:1039-1109 | Once WaitForStatus has returned, a move of the method or its waiter is enabled until the method returns. |
| `AgentRunner.ReportsOnceAndTruthfully` | agent-runtime/internal/runner/runner.go:39-110 | Exactly one SendStatus on every unkilled path, at most three POSTs; the code is the provider's last one if that is a failure, else 0 if the changes were pushed and 1 if not; a push only after a last provider result of 0. |
| `AgentProcess.Process.Run` | agent-runtime/internal/runner/runner.go:39-110 | Whatever the world does, one status is reported and only it is posted: code 1 with the text of the failed clone, context, start or push, the provider's own code and message if that is not 0, else 0; pushed iff nothing failed; and the whole execution is a run of AgentRunner's machine. |
| `AgentProcess.Process.PostJSON` | agent-runtime/internal/callback/client.go:188-237 | Between one and three POSTs of one payload, stopping at the first conclusive answer; success iff that answer is 2xx. |
| `AgentProcess.Process.Drain` | agent-runtime/internal/runner/runner.go:73-83 | The loop ends with the last result event, or the zero value. |
| `StatusStore.CallbackStatusStore.SetStatus` | backend/internal/adapter/memory/callback_status_store.go:56-68 | First write wins; a full channel drops the value; other steps untouched. |
| `StatusStore.CallbackStatusStore.WaitForStatus` | backend/internal/adapter/memory/callback_status_store.go:35-52 | Reports only what was buffered for this step, gives up only for its context or timer, leaves no channel of the step behind and no other step changed. |
| `StatusStore.CallbackStatusStore.GetOrCreateChannel` | backend/internal/adapter/memory/callback_status_store.go:71-81 | The map region: at most one channel per step. |
| `StatusStore.NextKeepsInv` | backend/internal/adapter/memory/callback_status_store.go:35-88 | Every atomic region keeps: until its waiter leaves, a step has one channel and it holds the first stored value. |
| `StatusStore.WaitYieldsFirstStored` | backend/internal/adapter/memory/callback_status_store.go:35-68 | In every interleaving a wait that yields a status yields the first one stored for its own step, one that was passed to SetStatus for that step. |
| `StatusStore.EarlyStatusIsDelivered` | backend/internal/adapter/memory/callback_status_store.go:35-68 | A status stored before the wait begins is not lost, whatever happens around it. |
| `TokenStore.ContainerTokenStore.Validate` | backend/internal/adapter/memory/container_token_store.go:50-63 | Succeeds iff the token is stored and not past its expiry; a success changes nothing, a refusal lets go of at most this token. |
| `TokenStore.ContainerTokenStore.Sweep` | backend/internal/adapter/memory/container_token_store.go:72-91 | An uninterrupted sweep removes exactly the expired tokens. |
| `TokenStore.AnswersAsAbstractMap` | backend/internal/adapter/memory/container_token_store.go:34-91 | Refinement: with lazy deletion and sweeps interleaved one key at a time, Validate answers as the map of created, unrevoked, unexpired tokens. |
| `TokenStore.RevokedForever` | backend/internal/adapter/memory/container_token_store.go:50-69 | A revoked token never validates again in any continuation. |
| `TokenStore.RefusedForever` | backend/internal/adapter/memory/container_token_store.go:50-63 | Nor does any issued token that was refused once. |
| `EventBus.EventBus.Subscribe` | backend/internal/adapter/postgres/event_bus.go:74-103 | Fails once closed or when LISTEN fails; else registers a fresh open channel and keeps the registry invariant. |
| `EventBus.EventBus.Cleanup` | backend/internal/adapter/postgres/event_bus.go:92-100 | Unregisters and closes exactly this channel, and leaves a state in which a further cleanup changes nothing. |
| `EventBus.CleanupIsIdempotent` | backend/internal/adapter/postgres/event_bus.go:92-100 | Cleaning up twice is cleaning up once. |
| `EventBus.EventBus.CloseChannels` | backend/internal/adapter/postgres/event_bus.go:132-143 | Close's last region closes exactly the open registered channels and empties the map. |
| `EventBus.CleanupKeepsRegistry` | backend/internal/adapter/postgres/event_bus.go:330-341 | Registered iff open survives a cleanup, and a cleanup never closes a closed channel. |
| `EventBus.CloseKeepsRegistry` | backend/internal/adapter/postgres/event_bus.go:106-150 | The same for Close. |
| `EventBus.EventBus.HandleNotification` | backend/internal/adapter/postgres/event_bus.go:218-274 | An uninterrupted dispatch offers the event once to each subscriber of its project and to no other. |
| `EventBusRuns.ChannelLifecycle` | backend/internal/adapter/postgres/event_bus.go:74-150 | In every interleaving: registered iff open; no double close; after the first Close returned all channels are closed, the map is empty and nothing dispatches. |
| `EventBusRuns.NoSubscriptionAfterClose` | backend/internal/adapter/postgres/event_bus.go:74-84 | Once Close has begun no channel is ever created again. |
| `EventBusRuns.CloseCanComplete` | backend/internal/adapter/postgres/event_bus.go:106-150 | A Close that has begun can complete from any state of the bus, unless the dispatch under way hits a cleaned-up channel. |
| `EventBusRuns.Delivery` | backend/internal/adapter/postgres/event_bus.go:218-274 | Until cleaned up, a subscriber was offered exactly its project's events since it subscribed, in order and once each; received plus buffered is exactly the offers made while fewer than 100 items were held. |
| `EventBusRuns.BufferedCanBeReceived` | backend/internal/adapter/postgres/event_bus.go:257-274 | What a channel has buffered can all be received, in order, closed or not. |
| `EventBusRuns.KeptIsSubsequence` | backend/internal/adapter/postgres/event_bus.go:257-274 | What is kept is a subsequence of what was offered. |
| `EventBusRuns.SendFaultsOnlyAfterOwnCleanup` | backend/internal/adapter/postgres/event_bus.go:257-274 | A send hits a closed channel iff the subscriber's own cleanup ran; never one closed by Close. |
| `EventBusRuns.CleanupDuringDispatchFaults` | backend/internal/adapter/postgres/event_bus.go:257-274 | A concrete interleaving that reaches that fault. |
| `SidecarGC.Collector.GC` | backend/internal/adapter/docker/sidecar_manager.go:467-476 | One pass over the listings removes exactly the due networks and the due command containers. |
| `SidecarGC.RemovesExactlyTheOldOrphans` | backend/internal/adapter/docker/sidecar_manager.go:425-509 | Under run isolation the networks gone are exactly those managed, with a run id no running managed container carries, no newer than the cutoff, and without an API endpoint GC may not detach; exited containers make no difference. |
| `SidecarGC.ApiLeavesOldOrphansOnly` | backend/internal/adapter/docker/sidecar_manager.go:479-509 | The API is detached from exactly the old orphans, and from none if that is not configured. |
| `SidecarGC.Collector.ListOrphanNetworks` | backend/internal/adapter/docker/sidecar_manager.go:429-460 | Exactly the managed networks with a run id that no running managed container carries. |
| `SidecarGC.Collector.GcNetworks` | backend/internal/adapter/docker/sidecar_manager.go:479-509 | Exactly the old orphans that no running container and no undetachable API endpoint holds, and the API leaves old orphans only. |
| `SidecarGC.Collector.GcCommandContainers` | backend/internal/adapter/docker/sidecar_manager.go:515-556 | Exactly the finished command containers no newer than the cutoff. |
| `SidecarGC.LiveIsKept` | backend/internal/adapter/docker/sidecar_manager.go:515-556 | GC changes no run's liveness and frees no held network. |
| `SidecarGC.OnePassSettles` | backend/internal/adapter/docker/sidecar_manager.go:467-476 | For every inventory, a second pass with the same cutoff changes nothing. |
| `MarkdownBlocks.SplitIntoBlocks` | backend/internal/adapter/markdown/parser.go:55-109 | The nested scans terminate and refine chunk pairing, and the blocks are bounded by exactly the lines that show `---` between whitespace. |
| `MarkdownBlocks.DelimiterLine` | backend/internal/adapter/markdown/parser.go:62-93 | A line is a delimiter iff it is `---` with only whitespace characters on either side, a carriage return included. |
| `MarkdownBlocks.BlocksByPosition` | backend/internal/adapter/markdown/parser.go:55-109 | d lines that show `---` between whitespace give floor(d/2) blocks; counting from zero, block k's frontmatter and body are the lines between the lines 2k and 2k+1 of them, and from there to the next or the end. |
| `MarkdownBlocks.OneBlock` | backend/internal/adapter/markdown/parser.go:60-106 | One turn of the loop peels exactly one block off the chunk reading. |
| `MarkdownBlocks.SplitUndoesPrint` | backend/internal/adapter/markdown/parser.go:55-109 | Round trip: printing delimiter-free blocks and splitting gives them back. |
| `MarkdownPreview.ParsePreview` | frontend/src/composables/usePlanningImport.ts:76-83 | The index loop yields the pairs of consecutive non-blank pieces. |
| `MarkdownPreview.SplitIsByLine` | frontend/src/composables/usePlanningImport.ts:77 | The regular-expression split, character by character, cuts exactly at lines that are `---`. |
| `MarkdownPreview.PreviewAgreesExactlyWhen` | frontend/src/composables/usePlanningImport.ts:76-83 | Preview and importer pair the same chunks iff the document is agreeable. |
| `MarkdownPreview.PreviewShowsTheBlocks` | frontend/src/composables/usePlanningImport.ts:76-83 | And then every previewed story is the imported block, up to the newlines next to delimiters. |
| `MarkdownPreview.PreviewShowsTheBlocksExactlyWhen` | frontend/src/composables/usePlanningImport.ts:76-83 | The texts shown are those imported, up to newlines at their ends, iff the document is agreeable or every paired chunk repeats the preamble with nothing but blank after them. |
| `MarkdownPreview.PreambleShiftsThePreview` | frontend/src/composables/usePlanningImport.ts:77-83 | A concrete document with a preamble on which they disagree. |
| `PipelineConfig.PipelineConfigStore.EditOwner` | frontend/src/stores/pipelineConfig.ts:291-300 | The pass both flat-index edits make: the shrinking counter finds the owning group, and only that group changes. |
| `PipelineConfig.PipelineConfigStore.RemoveStep` | frontend/src/stores/pipelineConfig.ts:289-303 | Flattening afterwards is the flat list with that index deleted; an index out of range changes no step. |
| `PipelineConfig.RemoveCommutes` | frontend/src/stores/pipelineConfig.ts:289-303 | Removal in the owning group commutes with flattening, empty groups included. |
| `PipelineConfig.PipelineConfigStore.UpdateStep` | frontend/src/stores/pipelineConfig.ts:325-340 | Flattening afterwards is the flat list with that index replaced. |
| `PipelineConfig.UpdateCommutes` | frontend/src/stores/pipelineConfig.ts:325-340 | Replacement in the owning group commutes with flattening. |
| `PipelineConfig.PipelineConfigStore.ReorderSteps` | frontend/src/stores/pipelineConfig.ts:306-322 | Flattening afterwards is the flat list with one step moved, and every group keeps its identity and size. |
| `PipelineConfig.RedistributeCommutes` | frontend/src/stores/pipelineConfig.ts:313-319 | Dealing a flat list out over the old group sizes loses nothing and keeps order. |
| `PipelineConfig.PipelineConfigStore.AddStep` | frontend/src/stores/pipelineConfig.ts:273-286 | Flattening afterwards is the flat list plus the step, also when there was no group. |
| `PipelineConfig.PipelineConfigStore.ReorderGroups` | frontend/src/stores/pipelineConfig.ts:262-270 | A permutation of the groups; dirty only if something moved. |
| `PipelineConfig.PipelineConfigStore.ReorderStepsInGroup` | frontend/src/stores/pipelineConfig.ts:245-259 | Moves within the named group only. |
| `PipelineConfig.MoveIsPermutation` | frontend/src/stores/pipelineConfig.ts:262-268 | Moving by splice, negative and oversized indices included, permutes the list. |
| `PipelineConfig.MoveLands` | frontend/src/stores/pipelineConfig.ts:262-268 | Between valid indices the element lands at the target and the others keep their order. |
| `PipelineConfig.MoveFromElsewhere` | frontend/src/stores/pipelineConfig.ts:262-268 | Negative indices count from the end and others stop at an end; a source past the end moves nothing. |
| `PipelineConfig.GroupStepsByStage` | frontend/src/utils/pipelineStageUtils.ts:21-43 | One stage per group id holding the steps on that group's flat positions; the last group wins a repeated id. |
| `PipelineConfig.StageOwnsStep` | frontend/src/utils/pipelineStageUtils.ts:32-40 | A step is under a group's stage iff its order is a flat position that group owns. |
| `PipelineConfig.ExactlyOneStage` | frontend/src/utils/pipelineStageUtils.ts:21-43 | With distinct ids a step is in some stage iff its order lies in [0, total), and never in two. |
| `RuntimeStream.RuntimeState.ReduceRuntimeEvent` | frontend/src/stores/runtimeStream.ts:120-241 | The in-place reducer refines independent per-run and per-step transitions, one message at a time. |
| `RuntimeEvents.RunStarts` | frontend/src/stores/runtimeStream.ts:136-144 | `run.started`, in full: running, no finish time, no gate, and the message's start time, else the one known, else now; nothing else changes. |
| `RuntimeEvents.RunPausesAndResumes` | frontend/src/stores/runtimeStream.ts:145-158 | `run.paused` shows paused at a gate and `run.resumed` running without one; nothing else changes. |
| `RuntimeEvents.RunEnds` | frontend/src/stores/runtimeStream.ts:159-170 | `run.completed`, `run.failed` and `run.cancelled` show just that status, the message's finish time or now, no active step and no gate. |
| `RuntimeEvents.StepStarts` | frontend/src/stores/runtimeStream.ts:171-180 | `step.started` shows the step running, as under `run.started`, and makes it the active one of the run named, if any. |
| `RuntimeEvents.StepEnds` | frontend/src/stores/runtimeStream.ts:181-194 | `step.completed`, `step.failed` and `step.cancelled` show just that status and a finish time, and clear the run's active step if it is this one. |
| `RuntimeEvents.CostIsAdded` | frontend/src/stores/runtimeStream.ts:196-207 | A `log.emitted` of type cost adds each number, found under the first of its keys, to its own total of the run. |
| `RuntimeEvents.GateIsSet` | frontend/src/stores/runtimeStream.ts:209-221 | The two pending names set and the four answers clear the gate of the run and of the step named. |
| `RuntimeEvents.StoryEnds` | frontend/src/stores/runtimeStream.ts:224-237 | `story.status_updated` with a terminal status shows that status and keeps a finish time already known. |
| `RuntimeEvents.NothingElseHappens` | frontend/src/stores/runtimeStream.ts:120-241 | Any other name, a payload that is no object, and a message that lacks what its name needs change nothing. |
| `RuntimeStream.SignalsAreSound` | frontend/src/stores/runtimeStream.ts:82-241 | In every trace whose step events carry their owning run: a run's active step belongs to it and is running; a step is terminal iff it has a finish time; a terminal run has one. |
| `RuntimeStream.RunKeepsInv` | frontend/src/stores/runtimeStream.ts:120-241 | The same from any well-formed state. |
| `RuntimeStream.StepsWithoutOwner` | frontend/src/stores/runtimeStream.ts:101-115 | The ownership condition is needed: a concrete trace of two messages that ends with a foreign active step. |
| `RuntimeStream.TotalsAreTheSum` | frontend/src/stores/runtimeStream.ts:196-207 | A run's token and cost totals are the sum over its cost events in the trace. |
| `RuntimeStream.FinishedSinceLastStart` | frontend/src/stores/runtimeStream.ts:136-170 | A finish time shows iff the run ended after its last start. |
| `RuntimeStream.StatusIsTheLastSet` | frontend/src/stores/runtimeStream.ts:136-170 | The status is the one last set, Pending if none was. |
| `RuntimeStream.ActiveIsTheLastStarted` | frontend/src/stores/runtimeStream.ts:159-194 | A step is active iff its start is the run's last word on the matter. |
| `RuntimeStream.RunsDoNotInterfere` | frontend/src/stores/runtimeStream.ts:120-241 | A run's signal is what its own messages alone would have made it. |
| `RuntimeStream.RuntimeState.HydrateRunStartedAt` | frontend/src/stores/runtimeStream.ts:276-289 | What the stream said stays, totals and active step included; only an absent start or finish time and a pending status are filled, of this run alone; without id or start time nothing changes. |
| `RuntimeStream.HydrationKeepsFinishTimes` | frontend/src/stores/runtimeStream.ts:276-289 | Seeding keeps "terminal means finished" iff it does not adopt a terminal status with no finish time known. |
| `LogConsumer.ConsumeAll` | backend/internal/adapter/action/agent_run.go:809-845 | The ring-buffer loop keeps the last min(n, size) messages and splits the events by type. |
| `LogConsumer.MergeUndoesSplit` | backend/internal/adapter/action/agent_run.go:824-844 | Cost events and forwarded events merge back into the stream: nothing lost, duplicated or reordered. |
| `LogConsumer.PersistsTheCompleteStream` | backend/internal/adapter/action/agent_run.go:809-877 | However stream, exit and goroutine interleave, an uncancelled return persisted the tail and all costs of the complete stream; a cancelled one wrote nothing. |
| `LogConsumer.CanAlwaysReturn` | backend/internal/adapter/action/agent_run.go:809-877 | Such a return is within reach from every state in which the container has not exited, with any code. |

## Left out

- Real Docker, Postgres, HTTP, git and provider SDK calls: they are the daemon, network and world of the models.
- Networks are identified by their run: the name built from prefix and run id is taken as injective, and at most one `Execute` per run id is active.
- DockerDaemon.Daemon.NetworkRemove: takes the worst case, in which every container left, stopped or not, keeps its network in use, so what the teardown order achieves holds of any daemon; that a forgotten sidecar keeps the run network is then certain only while that sidecar runs. A container's process state is not part of a run's view, so `Stop` changes nothing there.
- The isolation settings of sidecar manager, runtime and action are one `Deployment`; wiring that gives them different values is not modelled.
- Teardown calls fail only for the daemon's reasons, save the rollback inside `Create`; a daemon that errs on them otherwise is not modelled.
- A daemon call is atomic: a context done after the daemon has acted and before its answer arrives is not modelled.
- A setup command's own time limit shows as a wait that failed.
- Error values are reduced to their kind; messages, labels, environment strings, prompts and log lines are not modelled.
- SidecarGC.Collector.GC: states one pass over atomic listings without daemon errors; a collection racing with a launching run is not modelled, and its flat listing by label is not derived from the per-run views of DockerDaemon.
- CallbackSystem: a POST is taken to carry its own step's token. The handler takes the step from the URL and does not compare it with the token's, so that agents post for their own step only is an assumption about the agents.
- AgentRun.AgentRunAction.Execute: in callback mode the wait is tied to a history of the callback system by its token, the time that was minted and what it returns, and not step by step; the legacy `waitForCallback`, which does not watch the process, is such a wait in a history where the watcher sees nothing.
- The legacy success rule "container exited 0" of the log stream: `doneCh` may close without a value, so `LogConsumer` takes the exit code as given.
- Log and cost POSTs of the agent, whose failures are ignored, and the capability bundle fetch.
- StatusStore: entries that late duplicates re-create are modelled but nothing is claimed about the map ending empty.
- EventBusRuns: reconnection and the database lookup that completes a notification are one event tagged with its project; timing of reconnects is left out.
- TokenStore.ContainerTokenStore.Create: a fresh UUID is modelled as a token that was never issued.
- PipelineConfig.PipelineConfigStore.UpdateStep: a negative index makes the original set a stray non-index property on the copied array; the model keeps the list as it is.
- PipelineConfig: non-integer indices, and saving and loading the configuration.
- MarkdownBlocks: YAML and title parsing inside a block.
- RuntimeStream: signals are values in map fields, so a view that holds on to a record object is not modelled; token counts are exact numbers, not floating point; the elapsed-time getters are left out.
- The microsandbox, GitHub, Gitea and planning adapters, the SQL repositories and the remaining frontend.
