# agent-ops: a verified model of the daemon's state machines

agent-ops is a daemon that keeps one machine's software installed and healthy with the help of language
models. This project models the parts of it whose promises span whole runs, and proves those promises.

| file | component |
|---|---|
| `Store.dfy`, `Follower.dfy` | the event-sourced store, its bounded fact journal, and a replica fed by `EventsSince` |
| `Supervise.dfy`, `SuperviseEnds.dfy` | one supervised run of an install script, and where and how it ends |
| `Bootstrap.dfy`, `BootstrapEnds.dfy`, `SpendLimit.dfy` | the plan / supervise / intervene loop around it, when it succeeds, and how far it can overspend |
| `JsonSpan.dfy`, `TailBuffer.dfy` | the JSON-object extractor and the output tail that loop rests on |
| `StdioClient.dfy`, `StdioDelivery.dfy` | the stdio JSON-RPC client with its restarting subprocess, and what becomes of a response |
| `EnvFile.dfy`, `EnvText.dfy`, `EnvTwice.dfy`, `Config.dfy`, `Integrate.dfy`, `ConfigLock.dfy` | the env-file merge, the file read back as text and merged again, configuration loading, `Add`/`Remove`, and their lock |
| `ToolLoop.dfy`, `Runner.dfy`, `Scheduler.dfy` | tool registry and conversation loop, single-flight runner, cron registry |
| `Bridge.dfy` | the stdio-to-HTTP bridge |
| `FactPrompt.dfy` | facts in the system prompt and `fact_inspect` |
| `Common.dfy`, `Text.dfy` | shared vocabulary and the Go string operations used |

How it is put together. Each operation that the source performs step by step is a method, or a class with the
source's fields, proved equal to a function on values; the promises are lemmas about that function over every
input, every sequence of calls or every interleaving. Planner, supervisor, process, network, clock and cron
syntax are oracles: arbitrary functions or arguments, so a statement holds for all of their behaviours.
Concurrent code (stdio client, runner, registry, config lock, follower, bridge) is a state machine over its
critical sections and channel operations; an action that is not enabled changes nothing. A transaction commits
or aborts as one step. A Go string is a sequence of characters; where the source counts bytes a character
stands for one byte.

Where the code does less than its comments say, the model follows the code and states exactly what is left:

- The mid-run budget guard stops a run only when the remainder is exactly zero (`agent_script.go:757`, against
  the comment at 585-588): `Supervise.BudgetGuardIsEquality`; `SpendLimit.BoundAttainedIff` says exactly for
  which settings a run then overspends by all that one attempt may cost.
- On failure the reported iteration count is the configured maximum (`agent_script.go:556-558`):
  `Bootstrap.IterationsReported` says in which runs that is the number of attempts made, and
  `SpendLimit.MiscountIff` for exactly which settings it can be too large.
- After a done verdict `superviseScript` still waits for the script to end (`agent_script.go:729-736`), although
  the comment at 866-870 leaves a running script alone: `Supervise.ReturnsAtOnceIff` says exactly which runs
  return without that wait.
- After a failed `Start` the supervisor only waits for stop (`manager.go:133-143`):
  `StdioClient.FailedRestartStrands`; `StdioClient.RestartsIff` says exactly when it can still restart, and
  `StdioClient.StrandedReachable` gives a run that gets there.
- `Manager.Close` sets the stop channel to nil after closing it (`manager.go:173-174`), so a supervisor that
  comes to select after that moment can be left with two nil channels, and Close waits for ever:
  `StdioClient.CloseEndsIff` gives the exact condition, `StdioClient.CloseCanHang` and
  `StdioClient.CloseCanHangLate` the two ways to get there.
- The reader looks up and sends outside one critical section while `Close` closes channels
  (`stdio.go:141-146, 260-265`): `StdioClient.PanicIsTheCloseRace`, `StdioClient.RaceReachable`.
- `SetTask` stores the row before the cron string is parsed (`scheduler.go:230-242`):
  `CronScheduler.Scheduler.SetTask` and `CronScheduler.Scheduler.Hydrate` give both directions.
- Storing and registering are not one step (`scheduler.go:230-242`, against the comment at 221), so two SetTask
  calls can leave an enabled task without an entry: `CronScheduler.EnabledTaskNeverTicks`; the exact condition is
  `CronScheduler.AgreesIff`.
- A clean finish overwrites the invocation count with the round count (`claude.go:166`):
  `ToolLoop.CleanCountIsRounds`.
- `Remove` drops an auth key another integration may share (`integrate.go:245-246`): `Integrate.RemoveDropsKey`.
- Env values are written unchecked (`integrate.go:306-336, 422-437`), so a token with a newline binds keys nobody
  named and a second merge makes the file grow: `Integrate.NewlineTokenLeaks`, `EnvTwice.TwoLineValueGrows`;
  the exact conditions are `Integrate.AddKeepsOthers`, `Integrate.AddBindsSecrets` and `EnvTwice.MergeTwice`.
- A secret may be named like a variable that overrides the configuration (`config.go:225-333`), and the restarted
  daemon then refuses it: `Integrate.OverrideRefused`; the exact condition is `Integrate.RestartLoads`.
- A daemon body of literal `null` leaves a bridge request unanswered (`index.js:140, 207`), and so does a batch
  array, which has no `id` member whatever ids its requests carry (`index.js:78`): `Bridge.Unanswered` is exact.
- The bridge's timer is cleared before the body is read (`index.js:106-116`, against the comment at 80), so a body
  that never ends holds up every later request: `Bridge.SettlesAloneIff`, `Bridge.StalledBody`.
- Where flock is unsupported the lock covers one process only (`integrate.go:547-551`):
  `ConfigLock.TwoInsideIff` says exactly when two calls can be inside together, `ConfigLock.TwoInsideWithoutFlock`
  gives the run, and an Add that reported success is lost: `ConfigLock.LostAdd`.
- A closing store call that fails leaves its row running although the name is free again (`runner.go:265-267`):
  `Runner.LeakedIff`, `Runner.StartDoublesIff`, `Runner.FailedFinishDoubles`.

## Model

| member | source | states |
|---|---|---|
| EventStore.RowsAreReplay | internal/state/state.go:219-414 | the row changes of every mutator are exactly what a replica does on reading the event that mutator logs |
| EventStore.ExecConsistent | internal/state/state.go:5-9 | any call, committed or aborted, keeps: the log folded from the seeded state is the tables, and sequence numbers only grow |
| EventStore.LogReproducesTables | internal/state/state.go:5-9 | after any sequence of calls the log alone reproduces every table |
| EventStore.ReservedAppend | internal/state/state.go:144-169 | a bare append under any event keeps log and tables in agreement exactly when replaying that event changes nothing |
| EventStore.FactsAreLast | internal/state/mission.go:148-155 | replaying any log gives the last 100 facts the log ever recorded |
| EventStore.FactsBounded | internal/state/mission.go:32-41 | after any sequence of calls the stored facts are exactly the last min(100, n) of the n facts ever added, in order |
| EventStore.LifeAlways | internal/state/state.go:351-414 | per run id the log holds nothing, one start, or one start followed by one finish, matching the row's status and task |
| EventStore.TerminalAbsorbing | internal/state/state.go:328-334 | no later call changes the row of a finished run |
| EventStore.FinishRows | internal/state/state.go:391-399 | the guarded update changes the named running row and no other |
| EventStore.UpsertTaskIs | internal/state/state.go:219-259 | a committed call writes the one row, stamped now, logs that very row, and changes nothing else |
| EventStore.StartRunIs | internal/state/state.go:351-378 | a committed call inserts a running row under the run's id with its own start time, or now, and logs it at that time |
| EventStore.FinishRunIs | internal/state/state.go:381-414 | a committed call closes the one row with status, end time, summary, error and tool count, and logs them |
| EventStore.SetStatementIs | internal/state/mission.go:97-118 | a committed call sets statement and time, keeps the facts, and logs the statement |
| EventStore.AddFactIs | internal/state/mission.go:123-177 | a committed call appends the trimmed text under its source, or "auto", keeps the last 100, and logs it |
| EventStore.Store.UpsertTask | internal/state/state.go:219-259 | the new database is the call's effect, one row and one event or nothing; the error says which |
| EventStore.Store.StartRun | internal/state/state.go:351-378 | status is forced to running, a missing start time is filled in, an existing id is refused |
| EventStore.Store.FinishRun | internal/state/state.go:381-414 | succeeds exactly for a terminal status on a row still running |
| EventStore.Store.SetStatement | internal/state/mission.go:97-118 | replaces the statement and logs it in the same step |
| EventStore.Store.AddFact | internal/state/mission.go:123-177 | refuses blank text, defaults the source, trims to 100 and returns the list now stored |
| EventStore.Store.EventsSince | internal/state/state.go:173-203 | the row loop returns the first page of events after the given sequence number, limit normalised to 1000 outside 1..10000 |
| Follower.PullTracks | internal/state/state.go:171-203 | one page read and applied keeps the replica equal to the fold of the log up to its watermark, and makes progress unless nothing is left |
| Follower.WriteTracks | internal/state/state.go:171-203 | a write between two reads does not disturb the replica |
| Follower.AlwaysTracks | internal/state/state.go:171-203 | under any interleaving of writers and page reads with any limits, each event up to the watermark has been applied once, in order |
| Follower.CatchesUp | internal/state/state.go:171-203 | on a quiescent log repeated reads end, for every limit, with the replica equal to the tables |
| Supervise.DoneNeedsDoneObject | internal/bootstrap/agent_script.go:954-982 | a reply counts as done exactly when its first balanced object decodes to done; any parse failure means continue |
| Supervise.VerdictIff | internal/bootstrap/agent_script.go:954-982 | a reply is read as done, continue or intervene exactly when its first balanced object decodes to that word up to case and spaces, and then with that object's note and reason |
| Supervise.Check | internal/bootstrap/agent_script.go:290-325 | the text a supervisor wrote is scanned and decoded into its verdict; an error it reports means continue |
| Supervise.SuperviseScript | internal/bootstrap/agent_script.go:612-909 | the turn loop computes the run that the turn function defines, for every oracle |
| Supervise.TurnSound | internal/bootstrap/agent_script.go:739-901 | one turn books its audit line, and a turn that stops the run shows the reason in that very turn |
| SuperviseEnds.RunEndsAtFirstStop | internal/bootstrap/agent_script.go:739-909 | a started run ends in the very first turn that is cancelled, at zero budget, serving, answered done or intervene, or past hope after the exit, with that reason's verdict, signals, error, turns and cost; if no turn is, at the turn cap |
| SuperviseEnds.InterveneEndsRun | internal/bootstrap/agent_script.go:866-882 | an intervene object ends the run in its turn with its reason, or its note if that is empty, SIGTERM to the group, and SIGKILL exactly when SIGTERM does not work |
| SuperviseEnds.AuditIs | internal/bootstrap/agent_script.go:770-857 | line i of the audit file has number i and the cost of the i-th answer |
| Supervise.RunIsSound | internal/bootstrap/agent_script.go:603-909 | a started run ends in done or intervene; done needs, in its last turn, a reply with a done object or exit 0 with a probe in [200,500), and signals nobody; intervene signalled the group or saw the exit; cost and turns are the audit file's |
| Supervise.ReturnsAtOnceIff | internal/bootstrap/agent_script.go:728-737 | a started run returns without waiting for its script to end of its own accord if and only if it was not declared done by a reply that found the process alive |
| Supervise.StartFailureIsClean | internal/bootstrap/agent_script.go:612-700 | a run reports a start failure exactly when it could not start, and then spent, logged and signalled nothing |
| Supervise.BudgetGuardIsEquality | internal/bootstrap/agent_script.go:754-763 | a turn is stopped for budget exactly when the remainder is zero |
| Supervise.ScriptCost | internal/bootstrap/agent_script.go:739-909 | with calls costing at most c, a run costs at most maxTurns times c |
| Bootstrap.MaxIterations | internal/bootstrap/agent_script.go:1024-1041 | the iteration cap is between 1 and 10 for every environment |
| Bootstrap.MaxSupervisorTurns | internal/bootstrap/agent_script.go:1074-1087 | the turn cap is between 1 and 600 for every environment |
| Bootstrap.CheckInterval | internal/bootstrap/agent_script.go:1055-1072 | the poll interval is between 5 and 300 seconds for every environment |
| Bootstrap.VerifyPort | internal/bootstrap/agent_script.go:1043-1053 | the probed port is 0 or a valid port for every environment |
| Bootstrap.RunAgentScriptBootstrap | internal/bootstrap/agent_script.go:345-569 | the outer loop computes the outcome and the per-attempt log that the iteration function defines |
| BootstrapEnds.SucceedsIff | internal/bootstrap/agent_script.go:404-569 | the bootstrap succeeds if and only if some attempt ran and was found done without error; that attempt is the last; the status says success exactly then, with the last verdict; every attempt ran with what was left of the budget, and a failed bootstrap stopped only where none could start, and says why |
| BootstrapEnds.PlannerIsTold | internal/bootstrap/agent_script.go:428-551 | the first planner hears nothing, each later one the exit code and reason of the attempt just before it, or that it had no plan or no script |
| BootstrapEnds.LimitsAre | internal/bootstrap/agent_script.go:1019-1087 | a limit is its default unless its variable holds a positive number, and then that number brought within bounds |
| Bootstrap.Conservation | internal/bootstrap/agent_script.go:443-563 | a written status carries all planner costs plus all audited costs and the number of audit lines; each retry heard the exit code and reason of the attempt before it |
| Bootstrap.IterationsReported | internal/bootstrap/agent_script.go:527-569 | the reported count is the number of attempts exactly when the budget gate did not cut the loop; else it is the maximum, and a positive budget is spent |
| Bootstrap.WorkBounded | internal/bootstrap/agent_script.go:404-563 | at most ten attempts and at most 600 polls in each |
| Bootstrap.SpendBound | internal/bootstrap/agent_script.go:404-443 | with budget B no attempt starts once B is spent, and the total is at most (B-1) plus one planner call plus maxTurns supervisor calls |
| SpendLimit.BoundAttainedIff | internal/bootstrap/agent_script.go:404-443 | with the same caps on every call, some run overspends by all that one attempt may cost if and only if the earlier attempts can spend the budget but one micro-dollar and the zero-remainder guard at 754-763 is not met in the last one |
| SpendLimit.MiscountIff | internal/bootstrap/agent_script.go:410-421 | with a positive budget and the same caps on every call, the gate cuts some run short, whose count is then reported too large, if and only if all attempts but the last can spend the budget |
| JsonSpan.ExtractExact | internal/bootstrap/bootstrap.go:697-737 | the extractor returns a text exactly when it is the balanced brace span standing at the first brace |
| JsonSpan.ExtractShortest | internal/bootstrap/bootstrap.go:697-737 | no proper prefix of the returned span is balanced |
| JsonSpan.ExtractJSONObject | internal/bootstrap/bootstrap.go:700-737 | the scanning loop finds such a span whenever there is one and fails only when there is none |
| JsonText.ObjectRoundTrip | internal/bootstrap/bootstrap.go:697-737 | for every JSON object with any white space and escapes (RFC 8259, sections 2, 4 and 7), any prefix without a brace and any suffix, exactly the printed object is returned |
| Tail.TailOfEverything | internal/bootstrap/bootstrap.go:565-597 | after any writes the visible tail is the last 32 KiB of everything written, and storage is at most 64 KiB |
| Tail.TailBuffer.Write | internal/bootstrap/bootstrap.go:573-587 | appends and, past twice the capacity, keeps the last 32 KiB |
| Tail.TailBuffer.String | internal/bootstrap/bootstrap.go:589-597 | returns the last 32 KiB ever written |
| Tail.TailBytesFrom | internal/bootstrap/agent_script.go:938-952 | a suffix of at most n, without the leading partial line when something follows it |
| Tail.SnapshotOfStream | internal/bootstrap/agent_script.go:938-952 | the supervisor's snapshot is a suffix of everything the script printed |
| StdioClient.CallsGetTheirOwn | internal/mcpclient/stdio.go:195-240 | against any server: a returned call is not pending, completed with its own id if with a frame, and keeps that one result for ever |
| StdioDelivery.SentFrameArrives | internal/mcpclient/stdio.go:222-265 | in every run, once a reader has sent its frame on an open channel, that channel holds exactly it, and in every continuation it is there or is the result, body included, of the call with its id |
| StdioDelivery.LookedUpIsHeld | internal/mcpclient/stdio.go:246-265 | in every run, a reader picks up a frame exactly when its id is pending, and holds that very frame until it sends it |
| StdioDelivery.GetsIff | internal/mcpclient/stdio.go:195-267 | in every run without panic, a waiting call can still return with frame f if and only if f is in its channel, or the channel is open and empty and f is in its reader's hand or its reader can still come to read it |
| StdioDelivery.ResultsHaveCauses | internal/mcpclient/stdio.go:213-236 | in every run, each way for a call to end needs its cause: a frame that was read, a flushed channel, a cancellation, a failed write, a closed client, or the exit of the subprocess it wrote to |
| StdioDelivery.CaptureIs | internal/mcpclient/stdio.go:208-218 | a registered call ends as closed, or as not started, or goes on with the subprocess held, exactly as the client's fields say |
| StdioDelivery.WaysOut | internal/mcpclient/stdio.go:223-236 | a waiting call can be cancelled at any time, ends with an exit exactly when its subprocess has exited, and with a closed channel exactly when it was closed empty |
| StdioDelivery.FlushFreesCalls | internal/mcpclient/stdio.go:141-147 | in every run, once Close has flushed the channels each waiting call can leave at once |
| StdioClient.AlwaysSafe | internal/mcpclient/stdio.go:195-267 | in every interleaving each channel only ever holds frames with its own id, and only calls in progress are pending |
| StdioClient.ReaderNeverBlocks | internal/mcpclient/stdio.go:254-265 | if no id is printed twice, whatever notifications and unsolicited lines come between, the reader's send never blocks |
| StdioClient.AnswersReachTheirCall | internal/mcpclient/stdio.go:242-267 | if every frame that is not a notification answers a request written to that subprocess, however often, a completing frame came from the subprocess that got the request |
| StdioClient.PanicIsTheCloseRace | internal/mcpclient/stdio.go:120-149 | a send on a closed channel happens only in runs where Close closes a channel a reader has already picked |
| StdioClient.RaceReachable | internal/mcpclient/stdio.go:260-265 | that race is reachable |
| StdioClient.FailedRestartStrands | internal/mcpclient/manager.go:133-143 | in every run a Start that fails leaves the supervisor waiting on a nil done channel |
| StdioClient.FailedRestartIsFinal | internal/mcpclient/manager.go:114-143 | from there no action whatever starts a subprocess |
| StdioClient.RestartsIff | internal/mcpclient/manager.go:114-156 | in every run a waiting supervisor of an open client can come to start another subprocess if and only if the client still holds one |
| StdioClient.StrandedReachable | internal/mcpclient/manager.go:133-143 | an exit followed by a failed restart is a run that gets there |
| StdioClient.CloseEndsIff | internal/mcpclient/manager.go:114-187 | in every run in which manager and client have been closed, the supervisor Close waits for can still stop if and only if it is neither about to call Start, nor in a delay it entered after the stop channel became nil, nor selecting on two nil channels |
| StdioClient.CloseCanHang | internal/mcpclient/manager.go:167-187 | a run in which Close comes between the delay and Start gets there, and no continuation stops the supervisor |
| StdioClient.CloseCanHangLate | internal/mcpclient/manager.go:114-132 | so does a run in which the supervisor sees the exit after the stop channel became nil and before the client is closed |
| StdioClient.BackoffDoubles | internal/mcpclient/manager.go:128-164 | in every run the delay is the smaller of 2^k seconds and the cap, k being the failed restarts since the last success |
| EnvFile.EnvLineKey | internal/integrate/integrate.go:444-458 | a line assigns a valid variable name or nothing |
| EnvFile.KeyOfLineIff | internal/integrate/integrate.go:444-458 | a line assigns a key exactly when it is that valid key, then '=' and anything, with white space allowed before both |
| EnvFile.AssignHasKey | internal/integrate/integrate.go:422-437 | a written assignment reads back as an assignment to the same key |
| EnvFile.MergeEnv | internal/integrate/integrate.go:398-442 | the two passes and the tidy-up produce a merge for some order of the appended keys |
| EnvText.MergeBinds | internal/integrate/integrate.go:394-442 | read back as text, a set key is bound to its value's first line, a deleted key is gone, every other key keeps its lines in order, with nothing in between if and only if no value brings a line for that key |
| EnvText.ValueBinds | internal/integrate/integrate.go:415-437 | a set key is bound only to its whole value if and only if the value has one line and no value's later line binds it otherwise |
| EnvText.OtherLinesSurvive | internal/integrate/integrate.go:394-397 | all lines about other keys, comments included, survive in order apart from blank lines at the very end, and no new one appears if and only if no value brings one |
| EnvTwice.MergeTwice | internal/integrate/integrate.go:398-442 | the same merge twice is the merge once if and only if every later line of every value is for a deleted key, or blank and at the end of the file; otherwise the file grows |
| EnvTwice.MergeTwicePlain | internal/integrate/integrate.go:398-442 | with one-line values merging twice is merging once, whatever the order of new keys |
| EnvTwice.MergeGrows | internal/integrate/integrate.go:398-442 | a value with a later line that is neither blank nor for a deleted key makes a second merge grow the file |
| EnvTwice.TwoLineValueGrows | internal/integrate/integrate.go:398-442 | such a value exists |
| DaemonConfig.DefaultsIdempotent | internal/config/config.go:195-333 | with a fixed environment, defaulting a defaulted configuration changes nothing |
| DaemonConfig.DefaultAgentIs | internal/config/config.go:199-227 | environment over file over default for the provider; model and key variable are the file's |
| DaemonConfig.DefaultToolCallsIs | internal/config/config.go:202-289 | the tool-call limit is the variable's positive number, else the file's, else 25 |
| DaemonConfig.DefaultTimeoutIs | internal/config/config.go:205-316 | the timeout is the variable's milliseconds, exact while they fit 64 bits as nanoseconds and wrapped beyond, else the file's, else 15 minutes |
| DaemonConfig.DefaultBootstrapIs | internal/config/config.go:235-266 | the bootstrap task is the file's, or a synthesized one when a variable names its prompt or model |
| DaemonConfig.DefaultSchedulesAre | internal/config/config.go:325-332 | only the prompt of the first health check can change |
| DaemonConfig.LoadedIs | internal/config/config.go:181-193 | what loads is the defaulted configuration, with an unnamed bootstrap task named |
| DaemonConfig.AcceptableIff | internal/config/config.go:349-427 | what a configuration needs to load, spelled out field by field |
| DaemonConfig.LoadedReloads | internal/config/config.go:181-193 | a loaded configuration, with any acceptable client list put in, loads back as itself |
| DaemonConfig.ParseReadsOverrides | internal/config/config.go:225-333 | loading depends on the environment only through the six overriding variables |
| DaemonConfig.RestartAccepts | internal/config/config.go:195-427 | an accepted configuration is accepted under another environment if and only if the overridden agent settings are in order and no bootstrap task is synthesized without a prompt |
| DaemonConfig.Config.ApplyDefaults | internal/config/config.go:195-333 | the assignments in place compute the defaulting function |
| DaemonConfig.Config.CheckSchedules | internal/config/config.go:368-388 | accepts exactly schedules with distinct names, parsable cron strings and prompts |
| DaemonConfig.Config.CheckClients | internal/config/config.go:400-425 | accepts exactly usable clients with distinct names |
| DaemonConfig.Config.Validate | internal/config/config.go:349-427 | accepts exactly the acceptable configurations and names an unnamed bootstrap task |
| DaemonConfig.ParseConf | internal/config/config.go:181-193 | defaults then validates, returning the configuration the daemon runs with |
| Integrate.ErrorChangesNothing | internal/integrate/integrate.go:159-178 | a failed call leaves both files as they were, except exactly when the env write failed and the rollback write did not restore the bytes |
| Integrate.CallStaysLoadable | internal/integrate/integrate.go:126-253 | under an unchanged environment, a successful call starts from and leaves a configuration the daemon accepts, changed by exactly the one integration, names distinct |
| Integrate.AddSucceedsIff | internal/integrate/integrate.go:126-186 | which error Add returns and when, in order, and exactly when it succeeds |
| Integrate.RemoveSucceedsIff | internal/integrate/integrate.go:202-253 | the same for Remove |
| Integrate.AddRecords | internal/integrate/integrate.go:148-156 | a successful Add leaves the clients there were and one more, last, with every field as asked for |
| Integrate.RemoveKeepsOthers | internal/integrate/integrate.go:216-236 | a successful Remove leaves exactly the clients with another name, in order |
| Integrate.EnvPairsAre | internal/integrate/integrate.go:159-168 | the pairs for the env file are the extra ones and the token under its variable, which wins |
| Integrate.RestartLoads | internal/integrate/integrate.go:126-253 | under any other environment, which the env file may have changed, the written config loads if and only if its overridden agent settings are in order and no bootstrap task lacks a prompt |
| Integrate.OverrideRefused | internal/integrate/integrate.go:306-336 | a secret named like an overriding variable passes validation, and no config loads under it |
| Integrate.AddThenRemove | internal/integrate/integrate.go:197-253 | Add then Remove of one name loads exactly the configuration there was before |
| Integrate.AddBindsSecrets | internal/integrate/integrate.go:163-178 | after Add each secret is bound, and only to its whole value, if and only if that value has one line and no secret's later line binds its key otherwise |
| Integrate.AddKeepsOthers | internal/integrate/integrate.go:163-178 | after Add any other key keeps exactly its bindings if and only if no secret brings a line that assigns it |
| Integrate.NewlineTokenLeaks | internal/integrate/integrate.go:306-336 | a token with a newline passes validation and binds a key nobody named |
| Integrate.RemoveDropsKey | internal/integrate/integrate.go:238-251 | Remove deletes every binding of the removed AuthEnv and of no other key, so a remaining integration keeps its secret exactly when it does not share the key |
| Integrate.Disk.AddIntegration | internal/integrate/integrate.go:126-186 | the call's file writes and result are those of the effect function |
| Integrate.Disk.RemoveIntegration | internal/integrate/integrate.go:202-253 | the call's file writes and result are those of the effect function |
| ConfigLock.Serializable | internal/integrate/integrate.go:505-565 | whatever the interleaving, the calls that got the lock act and return as if run one after another in the order they released it; only refused arguments and timeouts are in no order, and they change nothing |
| ConfigLock.ConfigStaysUsable | internal/integrate/integrate.go:505-565 | no update is lost: starting from a loadable config, whenever no call is inside it is loadable, its integrations are the starting ones with exactly the successful calls applied in release order, and names are pairwise distinct |
| ConfigLock.EveryOrderRuns | internal/integrate/integrate.go:523-565 | any acceptable calls can be made one after another in any order, each getting the lock and returning |
| ConfigLock.TwoInsideIff | internal/integrate/integrate.go:523-565 | two calls can be inside together if and only if flock does not work and two calls with acceptable arguments come from different processes |
| ConfigLock.TwoInsideWithoutFlock | internal/integrate/integrate.go:547-551 | the run: without flock two processes are inside at once |
| ConfigLock.LostUpdate | internal/integrate/integrate.go:547-551 | two calls of two processes in step both report success, and the file is what the second made of what both had read |
| ConfigLock.LostAdd | internal/integrate/integrate.go:547-551 | of two Adds in step, both successful, the first is in no config |
| ToolRegistry.Registry.Register | internal/tool/tool.go:69-84 | registers exactly named, new, non-nil tools and changes nothing else |
| ToolRegistry.Registry.Get | internal/tool/tool.go:94-99 | finds the one registered tool that carries the name, and nothing exactly when none does |
| ToolRegistry.Registry.Subset | internal/tool/tool.go:112-128 | an empty allowlist means this registry; otherwise a new one with exactly the allowed tools |
| ToolLoop.Converse | internal/driver/claude/claude.go:92-233 | the loop ends for one of four reasons, with the variables that many completed rounds leave |
| ToolLoop.Run | internal/driver/claude/claude.go:54-91 | without key or model nothing is sent; otherwise the loop with the normalised round limit |
| ToolLoop.Invoke | internal/driver/claude/claude.go:174-222 | one answer per tool use in order, and only registered tools run |
| ToolLoop.UsesOfReply | internal/driver/claude/claude.go:140-155 | the tool uses and the text of a reply are those of its parts, in order, wherever it is split |
| ToolLoop.AfterIs | internal/driver/claude/claude.go:92-233 | after k rounds the loop holds the transcript, requests, invocations and count that the responses determine |
| ToolLoop.StoppedSends | internal/driver/claude/claude.go:84-103 | at most maxIter requests are made, and they are the transcripts of the rounds so far |
| ToolLoop.RequestWellFormed | internal/driver/claude/claude.go:79-228 | request k carries 2k+1 messages strictly alternating from the user; each assistant turn is answered one for one, in order, by id, with the output of that use's own invocation, its error, or a refusal; and it extends request k-1 |
| ToolLoop.OnlyAllowedTools | internal/driver/claude/claude.go:174-190 | only tools of the registry handed in are ever invoked |
| ToolLoop.CleanCountIsRounds | internal/driver/claude/claude.go:163-168 | the reported round count is the number of tool uses exactly when every round asked for one |
| Runner.FinalStatusTerminal | internal/task/runner.go:239-259 | exactly when an outcome is a timeout, canceled, failed or completed, and with which error text |
| Runner.Inflight.Mark | internal/task/runner.go:305-313 | succeeds exactly when the name was free, and marks it |
| Runner.Inflight.Release | internal/task/runner.go:315-319 | frees exactly that name |
| Runner.AtMostOneRunning | internal/task/runner.go:194-204 | in every interleaving two rows of one task in running need a failed closing store call for one of those two runs |
| Runner.LeakedIff | internal/task/runner.go:261-267 | in every interleaving a row is left in running with nobody to close it exactly when a closing store call for it failed |
| Runner.LeakStays | internal/task/runner.go:261-267 | such a row stays in running in every continuation |
| Runner.StartDoublesIff | internal/task/runner.go:194-214 | a start that goes through makes a second row in running if and only if the closing call of an earlier run of that task failed |
| Runner.ReturnedRunsAreLogged | internal/task/runner.go:186-303 | in every interleaving, whatever closing calls fail, a call that returned without error has exactly one started event followed by exactly one finished event for its id, and that event and the row carry the status its driver's outcome maps to |
| Runner.StartRow | internal/task/runner.go:205-214 | a run that starts has a running row under the task's name with its trigger and start time |
| Runner.FinishRow | internal/task/runner.go:261-267 | a run that closes has the status, error, summary and tool count its driver left, and the rest of its row as it was |
| Runner.LifeInRuns | internal/task/runner.go:186-303 | in every interleaving each run id's log and row tell the same life |
| Runner.FailedFinishDoubles | internal/task/runner.go:261-267 | a concrete run in which that happens |
| CronScheduler.RegisterCoupled | internal/scheduler/scheduler.go:133-149 | replacing an entry keeps registry and live entries in one-to-one correspondence; a bad cron string leaves no entry |
| CronScheduler.AlwaysCoupled | internal/scheduler/scheduler.go:84-188 | in every interleaving of Hydrate, SetTask and ticks the live entries are exactly the registry's values, one per name |
| CronScheduler.CallsReadEnabled | internal/scheduler/scheduler.go:151-188 | in every interleaving each call that reaches the runner carries a row its closure read at that very step, and the row was enabled |
| CronScheduler.LookCallsIff | internal/scheduler/scheduler.go:151-188 | a closure makes a call exactly when the row it reads is enabled and there is a runner, whatever became of its entry |
| CronScheduler.EnabledTaskTicks | internal/scheduler/scheduler.go:133-188 | in every interleaving, a task last stored and last registered as enabled with a good cron string has a live entry with that string, whose tick and look hand the runner the row last stored |
| CronScheduler.AgreesIff | internal/scheduler/scheduler.go:221-243 | in every interleaving registry and store agree on a task if and only if its last committed store enables it exactly when the last registry update does so with a cron string that parses |
| CronScheduler.StaleEntryIsHarmless | internal/scheduler/scheduler.go:221-243 | two interleaved SetTask calls can leave a stale entry, and its ticks are skipped |
| CronScheduler.EnabledTaskNeverTicks | internal/scheduler/scheduler.go:221-243 | in the opposite order the row is enabled and no live entry is left for it |
| CronScheduler.SetTaskSync | internal/scheduler/scheduler.go:221-243 | storing and registering restores agreement with the store exactly unless the cron string is bad |
| CronScheduler.Scheduler.SetTask | internal/scheduler/scheduler.go:223-243 | the row is stored even when the cron string is bad; agreement is kept exactly when the call succeeds |
| CronScheduler.Scheduler.RunJob | internal/scheduler/scheduler.go:151-188 | the closure's checks in order: the task found, enabled, and a runner present, else no call |
| CronScheduler.Scheduler.StoreSchedules | internal/scheduler/scheduler.go:85-120 | each configured row is its own commit, up to the first that cannot be stored; then the table holds, for each name among them, the last such schedule, stamped, and every other row as it was |
| CronScheduler.Scheduler.Hydrate | internal/scheduler/scheduler.go:84-131 | boot succeeds exactly when every row is stored and every enabled task's cron string parses; a name is then registered exactly when its last configured row, else its stored row, is enabled, with that row's cron string; a row that cannot be stored leaves the rows before it stored and the registry untouched |
| Bridge.Unanswered | clients/mcp-bridge/index.js:67-149 | with fetch available a request gets no frame exactly when it has no id member, which is so for a notification and for every batch array, or the successful body is null |
| Bridge.AlwaysInOrder | clients/mcp-bridge/index.js:184-231 | at every point posts and replies are in input order, with at most one post in flight |
| Bridge.BridgeDelivers | clients/mcp-bridge/index.js:184-231 | for every input and timing: all requests but bare values posted one at a time in input order, each finished request has written exactly the frame it is owed, each unparsable line one error frame, everything flushed before the bridge resolves |
| Bridge.AnswersAre | clients/mcp-bridge/index.js:67-149 | in every run the daemon's text is written for request k exactly when it has an id and was answered with it in [200,300); an error exactly when it failed, with its own id and -32001 for 401, else -32603 |
| Bridge.OutcomesAre | clients/mcp-bridge/index.js:84-123 | in every run a finished request that was posted ended with the outcome its POST settled with while in flight, or with its headers when it has no id |
| Bridge.AlwaysCanResolve | clients/mcp-bridge/index.js:184-231 | every run can go on to post and finish everything read, and resolve |
| Bridge.OwedOncePerRequest | clients/mcp-bridge/index.js:204-220 | in the reply stream request numbers strictly increase, and request k is there exactly with its own reply |
| Bridge.SettlesAloneIff | clients/mcp-bridge/index.js:80-123 | in every run a posted request can settle by the timer alone, without the daemon doing anything, if and only if its response headers have not arrived |
| Bridge.StalledBody | clients/mcp-bridge/index.js:106-123 | while a body does not come nothing is posted, answered or resolved, whatever lines arrive |
| Bridge.BridgeLoop.OnLine | clients/mcp-bridge/index.js:192-204 | blank lines are skipped, unparsable ones answered at once, requests queued |
| Bridge.BridgeLoop.StartNext | clients/mcp-bridge/index.js:204-210 | the next request is posted, or answered at once when nothing can be posted |
| Bridge.BridgeLoop.OnHeaders | clients/mcp-bridge/index.js:106-116 | with the headers the timer is gone: a request without an id member is finished, any other awaits its body |
| Bridge.BridgeLoop.OnFetchSettled | clients/mcp-bridge/index.js:204-220 | the settled request writes its frame and the queue moves on |
| Bridge.BridgeLoop.OnClose | clients/mcp-bridge/index.js:223-231 | end of input closes the bridge and writes nothing |
| Bridge.BridgeLoop.OnDrained | clients/mcp-bridge/index.js:223-231 | the bridge resolves only when closed with nothing queued or in flight |
| FactPrompt.FilterFactForPrompt | internal/task/runner.go:363-417 | the filtering loops compute the shown text and the number of hidden lines |
| FactPrompt.FilterConserves | internal/task/runner.go:382-407 | kept plus hidden lines are all lines, and the kept ones are exactly those that are not noise |
| FactPrompt.HiddenIff | internal/task/runner.go:364-400 | a line is hidden exactly when it starts with "npm warn", blanks and case aside, and has none of the ten error words |
| FactPrompt.ErrorsNeverHidden | internal/task/runner.go:364-400 | a line with an error word anywhere, in any case, is never hidden |
| FactPrompt.ErrorsAreShown | internal/task/runner.go:353-417 | every such line is a line of the shown text |
| FactPrompt.FilterIdempotent | internal/task/runner.go:353-417 | filtering a filtered fact changes nothing and hides nothing |
| FactPrompt.ComposeSystemPrompt | internal/task/runner.go:90-128 | the base prompt alone when there is no mission; else one entry for each of the last 40 facts, oldest first, numbered back from the newest |
| FactPrompt.InspectAnswersIff | internal/api/mcp/server.go:1072-1112 | the tool answers exactly for a decodable index from 0 to the number of facts minus one, with the fact that many before the newest |
| FactPrompt.HintReachesFact | internal/api/mcp/server.go:1095-1106 | in any history, each entry of the prompt shows its fact with a hint that says how many lines are hidden and which number to ask for; that number makes the tool return that very fact despite the last-40 cut, and after k more facts the number grown by k does so exactly while it is below 100 |
| Text.SplitJoin | internal/task/runner.go:382-408 | joining lines and splitting them again gives the lines back |
| Text.LowerIs | internal/task/runner.go:382 | lower-casing works letter by letter, leaves other ASCII alone, and is idempotent |
| Text.AtoiItoa | internal/task/runner.go:410 | a printed index reads back as itself exactly when it fits 64 bits |

## Left out

- SQLite, YAML, JSON and HTTP libraries: a transaction is one commit-or-abort step, marshal and unmarshal are mutually inverse, a network round trip is an oracle value.
- Process spawning, signals, clocks, file-system errors and fsync: only exited or running, signalled, and "a rename is atomic" are kept; of reaping a process only whether it has to wait for the script to end is kept.
- Failing reads of the store: only writes fail.
- Update in place of the client slice in `Remove` (`cfg.MCPClients[:0]`): the filtered list is a new value, so aliasing with the old slice is not captured.
- Integer width: micro-dollar costs, sequence numbers and counters are unbounded; parsing of 64-bit integers and the timeout multiplication in the configuration are modelled with their width.
- Floating-point dollars: the budget starts as an integer number of micro-dollars, and the final status carries that integer rather than its quotient.
- Prompt wording, log lines, and the fixed text of tool errors, verdict notes and intervene reasons; date formatting in fact entries.
- How the service manager turns the env file into the environment of the restarted daemon: that environment is arbitrary.
- The output tail handed to the next planner call, the fact recorded after each attempt, and the idle and elapsed times shown to the supervisor.
- Model overrides of the scheduler, the notification clause, `RunNow`, the run reporter, the log sink and the cost column of the run table.
- Cron expression parsing: a predicate on strings.
- Unicode lower-casing beyond the characters whose lower case is ASCII; nothing compared with it here is non-ASCII.
- EventStore.LogReproducesTables: its runs use `Append` only under event types the other calls do not use, because the daemon itself never calls it; what holds under a type they do use is EventStore.ReservedAppend.
- The order of the keys the env merge appends: Go fixes no order for ranging over a map, so every order is allowed.
- EnvTwice.MergeTwice: needs the keys to set and to delete disjoint; `Add` deletes nothing and `Remove` sets nothing.
- StdioClient.AnswersReachTheirCall: a server that makes up the id of a call it was not asked can answer it; what holds against any server is StdioClient.CallsGetTheirOwn.
- The HTTP transport of the MCP client, tool listing, `Initialize` beyond its success or failure, and the audit file's best-effort writes failing.
- Telemetry, connector and cluster settings of the configuration, which pass through loading unchanged; `List`.
- The rest of the MCP server, the proxy, app authentication, the other drivers, the solo installer, the CLI, the doctor and service installation: input and output, or small independent checks.
