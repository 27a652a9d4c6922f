# Verified models of the longtradego daemon and booking services

longtradego is a command line tool with a daemon that runs scheduled tasks and mail monitors, and with a
booking service behind an idempotent public interface. This project models the parts of it that keep
state or scan text, and proves what holds of them for every input and every run.

- Command lines: one quote/escape automaton behind the printer, the tokenizer, the pipeline splitter and
  the `--` finder (`CommandLine.dfy`, `Pipeline.dfy`, `TaskCommand.dfy`), and the grammar that tokenizer and
  pipeline parser are proved to read exactly (`Grammar.dfy`, `PipelineGrammar.dfy`).
- Scheduled tasks: the manager's operations on memory and files (`TaskStore.dfy`, `TaskManager.dfy`), the
  protocol of workers, timers, wake channels, controls and restarts (`TaskProtocol.dfy`), its theorems
  (`TaskTheorems.dfy`, `TaskFiles.dfy`), and what each control means and keeps from running
  (`TaskControls.dfy`).
- Monitors: the table of running monitors and its critical sections (`Monitors.dfy`), the state file that
  saves write outside the lock (`MonitorFile.dfy`), and what a restart starts again (`MonitorOutcomes.dfy`).
- Idempotent replay: the store and middleware in sequence (`Idempotency.dfy`) and interleaved
  (`IdempotencyRace.dfy`).
- Booking: products, slots and reservations (`Booking.dfy`, `BookingService.dfy`), runs
  (`BookingTheorems.dfy`), how operations follow and undo one another (`BookingLaws.dfy`), the slot
  list (`BookingViews.dfy`), what an accepted request leaves behind (`BookingOutcomes.dfy`) and why one is
  refused (`BookingAnswers.dfy`).
- Booking drafts: the merge (`Draft.dfy`), conversations (`Continuation.dfy`), the draft list
  (`DraftService.dfy`), runs of it (`DraftTheorems.dfy`), whose data a reservation carries
  (`DraftOutcomes.dfy`) and which draft goes on (`DraftRules.dfy`).
- Security keys: scopes and merging (`SecurityKeys.dfy`), the file and the migration
  (`SecurityMigration.dfy`), and what a list of items means (`SecurityListing.dfy`).
- Mail: the back-off (`Backoff.dfy`), watermark and cut (`MailMonitor.dfy`) and runs with restarts
  (`MailRuns.dfy`).
- Frames: the length-prefixed stream of the MCP server (`McpFrames.dfy`).
- `Text.dfy` and `Sorting.dfy` hold trimming, decimals, keys, sorting and sums.

How the models are built:

- What the program changes in place is a class or a loop here, and each method is proved to do what a
  function on values says; the theorems are about those functions, over runs given as lists of events.
- A file is a value. A save is one step that succeeds or fails, chosen by a parameter; a read gives the
  last saved value. A region held under one mutex is one step.
- Time is an integer; an operation is given the time at which it runs. Confidence is a real number,
  compared with the exact 64-bit values of the two constants.
- Beside the value function of an operation stand lemmas that say what it means without it: when it is done,
  which data it stores, and what it leaves alone.
- The task protocol gives each worker a program counter, a timer with its target and a one-slot wake, and
  each control a gap between its unlock and its signals.

Some promises fail, and the exact condition is proved in each case: when a pipeline survives print and
parse (`Pipeline.PrintThenParsePipeline`), when a segment passes the tokenizer
(`Pipeline.SegmentsAndTokenizer`), when memory and state file agree after a step
(`TaskFiles.StepAgreement`), when a restart loses a task (`TaskFiles.RestartLoses`), when a request with an
idempotency key reaches the handler (`IdempotencyRace.ReachesHandler`) and when a save cuts a live record short
(`IdempotencyRace.SaveCutsShort`), when a slot is overbooked (`BookingTheorems.ServeOverbooks`), when a draft can
be confirmed twice (`DraftTheorems.LostWriteLeavesDraftOpen`), when a written token list can be read back
(`SecurityMigration.WriteThenParse`) and which old tokens a migration keeps (`SecurityMigration.Migrate`), when a
failed start of a monitor leaves the running ones alone (`Monitors.FailedSaveKeepsRunning`) and when it brings a
removed configuration back (`Monitors.RemovedReappears`), when the state file of the monitors is up to date
(`MonitorFile.FileIsLastLanded`), when the cut to the newest messages hides a new one
(`MailMonitor.CutKeepsNew`), when a restarted mail monitor can notify a message again (`MailRuns.RestartIsSafe`),
and when a cut stream is reported (`McpFrames.CutIsReported`).

The code and its documentation differ in one place modelled here: the repository's README calls the mail
cursor restart-safe, but a restarted monitor can notify messages again exactly when it starts below one that was
notified (`MailRuns.RestartIsSafe`), as it does after a cursor whose save failed or with a lower `--since-uid`
option (`MailRuns.RestartRepeats`). The model follows the code.

`dafny verify dfyconfig.toml` checks the whole project.

## Model

| member | source | states |
|---|---|---|
| `CommandLine.ParseCommandLine` | internal/service/daemon_command.go:3634-3702 | the scanner returns the tokens of the automaton, or its unfinished-escape or unclosed-quote error |
| `Grammar.ScannerIsExact` | internal/service/daemon_command.go:3634-3702 | without the automaton: words are returned exactly when the line is written of them, from blanks and bare, escaped, single-quoted and double-quoted pieces; an unfinished escape is reported exactly when the line breaks off after a backslash outside single quotes, an unclosed quote exactly when it breaks off inside quotes |
| `Grammar.WrittenWordsAreRead` | internal/service/daemon_command.go:3634-3702 | whatever pieces a line is written of, the scanner returns the words they mean |
| `CommandLine.TokensAccepts` | internal/service/daemon_command.go:3686-3701 | a line is accepted exactly when the shared quote/escape automaton ends outside quotes and escapes, with the error chosen by its last mode |
| `CommandLine.TokenRunMode` | internal/service/daemon_command.go:3634-3702 | the tokenizer's three flags always equal the automaton's mode, so tokenizer, splitter and `--` finder agree on what is quoted |
| `CommandLine.AdvanceAllExclusive` | internal/service/daemon_command.go:3645-3676 | the scanner is never inside single and double quotes at once, and nothing is escaped inside single quotes |
| `CommandLine.TokensNoneEmpty` | internal/service/daemon_command.go:3638-3645 | no accepted line yields an empty argument |
| `CommandLine.FormatCommandLine` | internal/core/command_log.go:220-230 | the line is the quoted arguments joined by single spaces |
| `CommandLine.FormatPipelineCommands` | internal/service/daemon_command.go:901-910 | the pipeline is its printed commands joined by bars with a space on each side |
| `Grammar.QuotingIsExact` | internal/core/command_log.go:232-244 | an argument is printed as it is exactly when it is not empty and holds none of the listed characters |
| `Grammar.PrintedAppend` | internal/core/command_log.go:220-230 | one more argument is printed after a space, one more stage after a bar |
| `CommandLine.PrintThenTokenize` | internal/core/command_log.go:220-244 | for every argument list, tokenizing its printed line gives back the arguments with the empty ones dropped |
| `CommandLine.NonEmptyArgsFixed` | internal/core/command_log.go:232-236 | nothing is dropped exactly when no argument is empty, which makes print-then-tokenize the identity |
| `Pipeline.SplitPipelineSegments` | internal/service/daemon_command.go:3557-3632 | the flag-updating splitter returns the trimmed stages, the scanner error, or the empty-stage error of the specification |
| `Pipeline.StagesAreTheProperCut` | internal/service/daemon_command.go:3584-3604 | the stages are the one way of cutting the line at bars that are outside quotes and escapes: joined by bars again they give the line back, and no stage holds such a bar |
| `Pipeline.TrimmedStageAccepted` | internal/service/daemon_command.go:3590-3598 | a stage that the automaton accepts is still accepted after trimming exactly when the trimmed text does not end in an odd run of backslashes |
| `Pipeline.SegmentsAndTokenizer` | internal/service/daemon_command.go:3557-3702 | every returned segment passes the tokenizer without a quote or escape error, except exactly those that lost an escaped blank at their end |
| `Pipeline.EscapedBlankIsLost` | internal/service/daemon_command.go:3557-3702 | such a line: any plain text with a backslash-escaped blank at its end is split, and its segment is then refused |
| `Pipeline.ParsePipelineCommandLine` | internal/service/daemon_command.go:3537-3555 | the pipeline parser returns the tokens of every segment, the splitter's error, or the first segment's scanner error |
| `PipelineGrammar.ParserIsExact` | internal/service/daemon_command.go:3537-3702 | commands are returned exactly when the line is finished and its proper cutting at the bars has one stage for each command, written of the words of that command |
| `PipelineGrammar.SplitterIsExact` | internal/service/daemon_command.go:3557-3632 | for every line: a blank stage before a bar is reported first, then how the line breaks off, then a blank last stage; else the trimmed stages are returned |
| `Pipeline.StageComesBack` | internal/service/daemon_command.go:3590-3598 | one printed command comes back from trimming and tokenizing exactly when it has arguments, none empty, and neither end exposes white space other than space, tab, LF and CR |
| `Pipeline.PrintThenParsePipeline` | internal/service/daemon_command.go:901-910 | printing and parsing a pipeline is the identity exactly when there is a command and each has arguments, none empty, with no such white space exposed at either end |
| `Pipeline.ReparsedPipeline` | internal/service/daemon_command.go:3537-3555 | what was parsed once is printed and parsed unchanged exactly when no stage exposes such white space: empty arguments cannot come up any more |
| `Pipeline.ExposedVerticalTabIsLost` | internal/service/daemon_command.go:3590-3598 | a concrete argument ending in a vertical tab does not survive print and parse |
| `TaskCommand.FindTaskCommandSeparator` | internal/service/daemon_task.go:825-900 | the scan finds the first bare `--` word outside quotes and escapes; without one it succeeds only on a line the tokenizer accepts, and fails with the tokenizer's error |
| `TaskCommand.SeparatorDecomposition` | internal/service/daemon_task.go:825-900 | at a found separator, tokens(line) = tokens(before) + ["--"] + tokens(after) |
| `TaskCommand.OptionsAndScanAgree` | internal/service/daemon_task.go:668-678 | option parsing by token index finds the scanned separator exactly when no earlier token spells `--` |
| `TaskCommand.QuotedDashesDisagree` | internal/service/daemon_task.go:668-678 | with a quoted `--` before it the two searches stop at different separators |
| `TaskCommand.ExtractTaskCommandLine` | internal/service/daemon_task.go:809-823 | the command part is the trimmed text after the first separator; a missing separator, an empty command and a scanner error are refused |
| `TaskCommand.ValidateTaskCommands` | internal/service/daemon_task.go:902-919 | a pipeline is accepted exactly when no stage is empty or starts with `task`, `daemon`, `d`, `exit` or `quit`, in any case |
| `TaskCommand.ForbiddenIsRefused` | internal/service/daemon_task.go:902-919 | a stage that begins with one of the five words, in any case and with spaces quoted into it, is refused wherever it stands in the pipeline |
| `TaskCommand.PlanTask` | internal/service/daemon_task.go:490-504 | the command part of `task add` is accepted exactly when the text after the first separator is one that a restart will load again |
| `PipelineGrammar.TaskLineIsExact` | internal/service/daemon_task.go:490-513 | a line can be that of a task exactly when it is trimmed and written of the words of a pipeline none of whose stages begins with one of the five words |
| `TaskStore.TaskIdRoundTrip` | internal/service/daemon_task.go:1412-1422 | reading the number of the id printed for n gives n, and two numbers never share an id |
| `TaskStore.LoadIsQuiet` | internal/service/daemon_task.go:291-398 | a loaded manager has no run in progress and a next run time exactly for the tasks that are not paused |
| `TaskManager.DaemonTaskManager.Load` | internal/service/daemon_task.go:291-398 | loading is refused exactly when a file is there and the manager already holds a task, and then changes nothing; otherwise it restores exactly the tasks whose schedule and command line are acceptable, reschedules the unpaused ones, and sets the id counter to the largest of its stored value and the restored ids |
| `TaskManager.DaemonTaskManager.AddTask` | internal/service/daemon_task.go:929-961 | a task is added and persisted, or after a failed save nothing remains but the advanced id counter |
| `TaskManager.DaemonTaskManager.PauseTask` | internal/service/daemon_task.go:1098-1120 | the flag is set and the next run cleared, in memory and file, or both are put back after a failed save; the worker is signalled after success |
| `TaskManager.DaemonTaskManager.ResumeTask` | internal/service/daemon_task.go:1122-1148 | a paused task is rescheduled unless it runs, in memory and file, or put back after a failed save; it is signalled if it was paused |
| `TaskManager.DaemonTaskManager.PauseAll` | internal/service/daemon_task.go:1150-1176 | the global flag is set and persisted, or put back after a failed save; every task is signalled after success |
| `TaskManager.DaemonTaskManager.ResumeAll` | internal/service/daemon_task.go:1178-1208 | the loop reschedules exactly the tasks that are neither paused nor running; a failed save restores the flag but keeps the new times |
| `TaskManager.DaemonTaskManager.CancelTask` | internal/service/daemon_task.go:1066-1096 | the task leaves map, state file and enters the history; each failing step is rolled back, except a failed rollback save |
| `TaskManager.DaemonTaskManager.MarkTaskRunning` | internal/service/daemon_task.go:1008-1021 | a run is admitted exactly when the task is there and neither it nor the manager is paused; the time is not looked at |
| `TaskManager.DaemonTaskManager.MarkTaskFinished` | internal/service/daemon_task.go:1023-1053 | finishing counts the run, clears the mark and reschedules unless paused, whether or not the save succeeds |
| `TaskManager.DaemonTaskManager.NextTaskTarget` | internal/service/daemon_task.go:1055-1064 | the worker is given the next run time unless the task is gone, paused, running, or everything is paused |
| `TaskManager.DaemonTaskManager.SaveState` | internal/service/daemon_task.go:1247-1277 | a successful save makes the state file equal the snapshot of the live tasks; a failed one leaves it alone |
| `TaskManager.DaemonTaskManager.AppendHistory` | internal/service/daemon_task.go:1279-1308 | the removal is appended to the history, or nothing changes |
| `TaskControls.PauseMeans` | internal/service/daemon_task.go:1098-1120 | a pause is done exactly when the task is there and the save works; then that task is paused with no next run, every other one is as it was, and the file holds what memory holds; otherwise nothing changes |
| `TaskControls.ResumeMeans` | internal/service/daemon_task.go:1122-1148 | the same for a resume: the flag is cleared, a task that was paused and does not run is due one interval from now, and it is signalled exactly when it was paused |
| `TaskControls.PauseAllMeans` | internal/service/daemon_task.go:1150-1176 | a global pause that is done sets the flag and changes no task, and stores it unless it was set already; any other changes nothing |
| `TaskControls.ResumeAllMeans` | internal/service/daemon_task.go:1178-1208 | a global resume that is done clears the flag and makes every idle task due one interval from now; one whose save fails keeps the flag and has moved the times |
| `TaskControls.CancelMeans` | internal/service/daemon_task.go:1066-1096 | a removal that is done takes exactly that task out of memory and file and appends it, as it was, to the history; one that fails leaves the tasks as they were |
| `TaskControls.AddMeans` | internal/service/daemon_task.go:929-961 | an addition that is done stores one more task with the interval and the line that were asked for, paused and never run |
| `TaskControls.MarkFinishedMeans` | internal/service/daemon_task.go:1023-1053 | a run that ends is counted once and its task is due one interval later, unless it was paused meanwhile |
| `TaskControls.LoadedMeans` | internal/service/daemon_task.go:291-398 | a loaded task has the stored interval, line, count and flag, is idle, and is due one interval from the start unless it is paused |
| `TaskProtocol.PauseSignals` | internal/service/daemon_task.go:1098-1120 | every task that a pause leaves runnable is either signalled or runnable as before for the same time, whether or not the save fails |
| `TaskProtocol.ResumeSignals` | internal/service/daemon_task.go:1122-1148 | the same for a resume: a task made runnable, or moved to a new time, is signalled |
| `TaskProtocol.GlobalControlsSignal` | internal/service/daemon_task.go:1150-1208 | the same for the global forms, including the next run times that a failed global resume leaves moved while everything is paused |
| `TaskProtocol.InitialInv` | internal/service/daemon_task.go:291-398 | a manager that starts from any state file satisfies the protocol invariant |
| `TaskProtocol.StepKeepsInv` | internal/service/daemon_task.go:963-1208 | every step of workers, controls, failing saves, the gap before a signal, and restarts keeps the invariant |
| `TaskProtocol.RunKeepsInv` | internal/service/daemon_task.go:963-1208 | so does every finite interleaving |
| `TaskTheorems.NoLostWakeup` | internal/service/daemon_task.go:963-1064 | in every reachable state a runnable task has a wake pending or owed, or a worker whose timer is set or has just rung for exactly its next run time, or that is about to compute it |
| `TaskTheorems.ScheduleInvariant` | internal/service/daemon_task.go:330-365 | in every reachable state a next run time is set exactly when the task is neither paused nor running, and a task is marked running exactly while its one worker is in the runner |
| `TaskTheorems.InternalStepShrinksBacklog` | internal/service/daemon_task.go:963-1006 | every internal step of a worker reduces a measure, so a worker settles in boundedly many steps |
| `TaskTheorems.UnsettledHasStep` | internal/service/daemon_task.go:963-1006 | a worker that has not settled always has an internal step to take: no deadlock |
| `TaskTheorems.RunnableTaskRuns` | internal/service/daemon_task.go:963-1021 | from any reachable state a runnable task is brought to a run by its own worker and the clock alone; not before its next run time, unless a timer set for another time has already rung |
| `TaskTheorems.RunStarts` | internal/service/daemon_task.go:1008-1021 | a worker whose timer rang starts a run exactly when the task is present and nothing is paused, and before the next run time only with a wake still on its way |
| `TaskTheorems.QuickPauseAndResumeRunsEarly` | internal/service/daemon_task.go:1008-1021 | a quick pause and resume behind a fired timer does start a run before its next run time |
| `TaskControls.GlobalPauseStopsRuns` | internal/service/daemon_task.go:1008-1021 | in every reachable state: after a global pause that is done no run of any task starts, through any events, until a global resume is done; where there is a state file, restarts included |
| `TaskControls.PauseStopsRuns` | internal/service/daemon_task.go:1008-1021 | after a pause of a task that is done no run of it starts, restarts included, until a resume of that task is done |
| `TaskControls.ResumedTaskRuns` | internal/service/daemon_task.go:1122-1148 | after a resume that is done, with nothing paused globally, an idle task is brought to a run by its own worker and the clock alone |
| `TaskControls.TimerIsPrompt` | internal/service/daemon_task.go:963-1006 | a worker sets its timer for the next run time, or for now if that has passed; only the time it loses between computing and setting comes on top |
| `TaskControls.WorkersEnd` | internal/service/daemon_task.go:1066-1096 | once the manager is closed, or its task cancelled, a worker may end whenever it waits |
| `TaskControls.EndedWorkerRunsNothing` | internal/service/daemon_task.go:963-1006 | a worker that has ended runs nothing for the rest of the process |
| `TaskTheorems.AdditionKeepsWorkers` | internal/service/daemon_task.go:929-961 | adding a task never takes the place of a live worker |
| `TaskTheorems.RunCountCountsRuns` | internal/service/daemon_task.go:1023-1053 | between two restarts the run count of a live task grows by exactly the runs finished |
| `TaskTheorems.TaskSetStep` | internal/service/daemon_task.go:929-1096 | without a restart only an addition brings a task in, and workers stay |
| `TaskTheorems.AddAppends` | internal/service/daemon_task.go:929-961 | an addition brings in one new paused task with one new worker, and after a failed save only uses up the number |
| `TaskTheorems.RemovedStaysRemoved` | internal/service/daemon_task.go:1066-1096 | a removed id does not come back while no restart happens |
| `TaskFiles.StepAgreement` | internal/service/daemon_task.go:929-1308 | a step from agreeing memory and state file leaves them agreeing unless it is a removal that cannot be archived and then not be rolled back in the file, or a finished run whose save fails, and in those two cases never |
| `TaskFiles.RemoveAgreement` | internal/service/daemon_task.go:1066-1096 | a removal breaks the agreement of memory and state file exactly when the task is there, its removal is saved, the archive fails and the rollback save fails |
| `TaskFiles.RunAgreement` | internal/service/daemon_task.go:1023-1053 | starting a run keeps the agreement; ending one keeps it exactly when its save works or the task is gone |
| `TaskFiles.RestartRestores` | internal/service/daemon_task.go:291-398 | restarting from an agreeing file gives back every task with its flags, counts and command line |
| `TaskFiles.FirstStartAgrees` | internal/service/daemon_task.go:291-310 | a first start, with no state file yet, is in agreement |
| `TaskFiles.RunsAgree` | internal/service/daemon_task.go:929-1308 | from agreement memory and state file agree through every run, with restarts, in which neither of the two failures occurs |
| `TaskFiles.IdsAreNeverReused` | internal/service/daemon_task.go:367-390 | across removals, failed adds and restarts, an id once returned by a successful add is never returned again |
| `TaskFiles.TasksAreConserved` | internal/service/daemon_task.go:1066-1096 | with a history path, every id ever created is at every moment in exactly one of the live map, the removal history, and the tasks that a restart did not find |
| `TaskFiles.RestartLoses` | internal/service/daemon_task.go:1089-1096 | a restart loses nothing exactly when the state file holds every issued task that is live |
| `TaskFiles.NothingLostWithoutRollbackFailure` | internal/service/daemon_task.go:1066-1096 | in runs in which no removal fails at its archive and then at its rollback save nothing is lost, so each id is in exactly one of live map and history |
| `TaskFiles.FailedRollbackLosesTask` | internal/service/daemon_task.go:1080-1092 | a failed rollback save leads to a restart that loses a live task |
| `Idempotency.RecordKeyInjective` | internal/service/public_idempotency_store.go:114-116 | on parts without line breaks two requests share a record exactly when route, third party and key all agree |
| `Idempotency.LineBreaksCollide` | internal/service/public_idempotency_store.go:114-116 | with line breaks two different triples share a record |
| `Idempotency.PublicIdempotencyStore.PruneExpired` | internal/service/public_idempotency_store.go:266-285 | the loop deletes exactly the expired records and says whether it deleted any |
| `Idempotency.PublicIdempotencyStore.LookupRecord` | internal/service/public_idempotency_store.go:123-159 | a lookup answers miss, replay or conflict by key and body hash, pruning what it may |
| `Idempotency.PublicIdempotencyStore.SaveRecord` | internal/service/public_idempotency_store.go:161-213 | a save stores one record with its expiry and prunes, or leaves the file alone when it fails |
| `Idempotency.PublicIdempotencyStore.Handle` | internal/service/public_idempotency_store.go:287-391 | the middleware answers and leaves the store as the sequential specification says, for every combination of failing reads and writes |
| `Idempotency.ReplyMeans` | internal/service/public_idempotency_store.go:287-391 | a fresh reply is the handler's own body and status, 200 where it set none; a replay is that of a live record with the same body hash, a conflict that of one with another; without a live record and without file errors the reply is fresh |
| `Idempotency.ReplayUntilExpiry` | internal/service/public_idempotency_store.go:295-391 | over any sequential run with a clock that does not go back, after a saved answer every request with that key before its expiry gets what the handler answered then, its body and its status or 200, or is refused as a conflict, and is never handled |
| `Idempotency.ReplaysHaveSource` | internal/service/public_idempotency_store.go:123-159 | conversely, every replay or conflict goes back to a record that was there at the start, or to what the handler answered to an earlier fresh request of the key whose time to live has not passed |
| `Idempotency.HandlerRunsAreApart` | internal/service/public_idempotency_store.go:295-391 | after a saved handler run for a key the next one is at least a time to live later |
| `Idempotency.PruningUnobservable` | internal/service/public_idempotency_store.go:266-285 | the replies of any run in which the pruning writes work are those of a store that never prunes |
| `IdempotencyRace.RunKeepsInv` | internal/service/public_idempotency_store.go:123-213 | every interleaving of the lookup, handler and save steps of any number of requests keeps the invariant |
| `IdempotencyRace.ReachesHandler` | internal/service/public_idempotency_store.go:123-159 | in any state a request reaches the handler exactly when its lookup can read the file, and write it if there is something to prune, and its key has no live record |
| `IdempotencyRace.ReplaysAreGenuine` | internal/service/public_idempotency_store.go:334-391 | in every interleaving a replay is what the handler itself answered in some run for that key and body, with 200 for a status that was not set |
| `IdempotencyRace.FreshAnswersAreOwn` | internal/service/public_idempotency_store.go:334-391 | in every interleaving a fresh reply is what the handler answered to that very request |
| `IdempotencyRace.LiveRecordsGiveWayOnlyToOtherBodies` | internal/service/public_idempotency_store.go:161-213 | a live record is replaced only by one of another body hash |
| `IdempotencyRace.OneBodyOneAnswer` | internal/service/public_idempotency_store.go:161-213 | if all requests of a key carry one body, its live record stays the same through any interleaving |
| `IdempotencyRace.LiveRecordIsReplayed` | internal/service/public_idempotency_store.go:334-391 | while that record lives, every lookup of its key is answered with it or, if the file fails, refused; none leads to the handler |
| `IdempotencyRace.OnlyEarlierMissesRun` | internal/service/public_idempotency_store.go:334-391 | from a save to the expiry of its record the handler runs for the key only on behalf of requests that had looked up before the save |
| `IdempotencyRace.SaveCutsShort` | internal/service/public_idempotency_store.go:161-213 | with several bodies for a key, a save brings the expiry of a live record forward exactly when it works, has another body hash and was stamped too long ago |
| `IdempotencyRace.StaleSaveReopens` | internal/service/public_idempotency_store.go:161-213 | after such a save any request of the key reaches the handler while the replaced record would still be live |
| `IdempotencyRace.StaleSaveHappens` | internal/service/public_idempotency_store.go:161-213 | a state before such a save is reached by an interleaving of two requests |
| `IdempotencyRace.OverlappingRequestsRunTwice` | internal/service/public_idempotency_store.go:334-391 | two requests with one key and body whose lookups both come before either save both run the handler |
| `Sorting.SumOfPermutation` | internal/service/booking_service.go:986-991 | a total over records does not depend on their order |
| `Sorting.AnySortAgrees` | internal/service/booking_service.go:899-909 | sorting by a strict total order has one result, whatever algorithm does it |
| `Sorting.KeyIndexFinds` | internal/service/booking_service.go:1066-1084 | a look-up finds the first record with the key, and fails exactly when there is none |
| `BookingServices.AvailableCapacity` | internal/service/booking_service.go:1108-1139 | the loop returns capacity minus the confirmed seats, never below zero, leaving out the excluded reservation |
| `BookingServices.NextReservationId` | internal/service/booking_service.go:1086-1106 | the loop returns one more than the largest number used by any id, with or without its prefix |
| `BookingServices.FindIndex` | internal/service/booking_service.go:252-258 | the linear search returns the first record whose id agrees up to case and surrounding space |
| `BookingServices.NormalizePersonnel` | internal/service/booking_service.go:1023-1043 | contact data is trimmed and required, blank members are dropped |
| `BookingServices.BookingService.UpsertProduct` | internal/service/booking_service.go:237-305 | the files and the answer after the call are those of the specification, for every input and write outcome |
| `BookingOutcomes.ProductAsAsked` | internal/service/booking_service.go:237-305 | an accepted product has the name, description and switch of the input; what the input leaves open is that of the stored one |
| `BookingOutcomes.UpsertedProducts` | internal/service/booking_service.go:237-305 | it replaces the product with its id or is added; all others stay |
| `BookingServices.BookingService.RemoveProduct` | internal/service/booking_service.go:307-353 | a product goes only when no slot and no active reservation names it |
| `BookingOutcomes.RemovedProducts` | internal/service/booking_service.go:307-353 | a product goes exactly when it is there, no slot is of it, no active reservation is for it and the file can be written; it alone goes |
| `BookingServices.BookingService.UpsertSlot` | internal/service/booking_service.go:370-466 | blank fields fall back on the stored slot, and the checks run in the order of the code |
| `BookingOutcomes.SlotAsAsked` | internal/service/booking_service.go:370-466 | an accepted slot is what the input says, filled up from the stored slot |
| `BookingOutcomes.SlotAcceptedExactly` | internal/service/booking_service.go:370-466 | a slot is accepted exactly when input and stored slot together give an existing product, readable times in order and a positive capacity |
| `BookingAnswers.SlotRefusedForCause` | internal/service/booking_service.go:370-466 | a refused slot is told something that is true of it |
| `BookingServices.BookingService.MergeSlot` | internal/service/booking_service.go:389-440 | which slot is stored, or which of the eight checks refuses it |
| `BookingServices.BookingService.RemoveSlot` | internal/service/booking_service.go:468-511 | a slot goes only when no active reservation names it |
| `BookingOutcomes.RemovedSlots` | internal/service/booking_service.go:468-511 | a slot goes exactly when it is there, no active reservation is for it and the file can be written; it alone goes |
| `BookingServices.BookingService.CreateReservation` | internal/service/booking_service.go:528-612 | a pending reservation with a fresh id is stored, or the first failing check is answered and nothing changes |
| `BookingOutcomes.CreatedAsAsked` | internal/service/booking_service.go:528-612 | an accepted request is stored as asked: its party size, product, slot, user, contact, members and requirements, pending, from now, under the next number; nothing else in the books changes, and a refusal changes nothing |
| `BookingOutcomes.AcceptedExactly` | internal/service/booking_service.go:528-612 | a request is accepted exactly when it is complete, an enabled product has the enabled slot with enough seats that no confirmed reservation takes, and the file can be written |
| `BookingAnswers.RefusedForCause` | internal/service/booking_service.go:528-612 | a refused request is told something that is true of it or of the books |
| `BookingOutcomes.ConfirmingTakesTheParty` | internal/service/booking_service.go:528-725 | confirming what was reserved succeeds and raises the confirmed total of that slot by exactly the party size asked for, and that of no other slot |
| `BookingServices.BookingService.FindRoom` | internal/service/booking_service.go:560-583 | the checks against product, slot and free seats |
| `BookingServices.BookingService.TransitionReservation` | internal/service/booking_service.go:641-725 | only a pending reservation moves, and it is confirmed only when its slot has room for it |
| `BookingOutcomes.SettledAsAsked` | internal/service/booking_service.go:641-725 | a reservation is settled exactly when it is pending, the file can be written and, to be confirmed, its product is there and its enabled slot has the seats; only its status, note and time change, and nothing else in the books |
| `BookingAnswers.SettlingRefusedForCause` | internal/service/booking_service.go:641-725 | a refusal to settle names something that is true of the reservation or of the books |
| `BookingServices.BookingService.CheckConfirmation` | internal/service/booking_service.go:686-708 | what confirming needs: product, enabled slot, and room not counting the reservation itself |
| `BookingTheorems.NumberOfId` | internal/service/booking_service.go:1086-1103 | an id equal to `r-N` up to case and space stands for N |
| `BookingTheorems.NextIdIsFree` | internal/service/booking_service.go:587-591 | in every reachable state the next id belongs to no stored reservation, even up to case |
| `BookingTheorems.StoredOrderIsDetermined` | internal/service/booking_service.go:986-992 | the order in which reservations are written is settled by creation time and id, so the unstable library sort has no freedom |
| `BookingTheorems.WriteReservationsKeepsOk` | internal/service/booking_service.go:971-1001 | sorting on write changes no confirmed total, no id and no link to slots and products |
| `BookingTheorems.UpsertSlotKeepsOk` | internal/service/booking_service.go:370-466 | an accepted slot change overbooks exactly when its capacity is below the confirmed seats |
| `BookingTheorems.RemoveSlotKeepsOk` | internal/service/booking_service.go:468-511 | the guarded removal leaves no active reservation without its slot |
| `BookingTheorems.RemoveProductKeepsOk` | internal/service/booking_service.go:307-353 | the guarded removal leaves no slot and no active reservation without its product |
| `BookingTheorems.ConfirmationFits` | internal/service/booking_service.go:698-707 | an accepted confirmation fits beside all confirmed reservations of the slot |
| `BookingTheorems.NoBooksOk` | internal/service/booking_service.go:921-942 | a service without files starts in a state that satisfies the invariant and overbooks nothing |
| `BookingTheorems.ServeKeepsOk` | internal/service/booking_service.go:237-725 | every operation keeps ids unique up to case, party sizes positive, numbers below the counter, and active reservations backed by slot and product |
| `BookingTheorems.RunKeepsOk` | internal/service/booking_service.go:237-725 | so does every run |
| `BookingTheorems.ServeOverbooks` | internal/service/booking_service.go:370-725 | one request overbooks a slot exactly when it lowers a capacity below the confirmed seats |
| `BookingTheorems.RunNeverOverbooks` | internal/service/booking_service.go:528-725 | in every run that never does so no slot is ever overbooked, through failing writes and slots removed and made again |
| `BookingTheorems.LoweringOverbooks` | internal/service/booking_service.go:430-440 | any slot with more than one confirmed seat can be overbooked by an accepted capacity change |
| `BookingTheorems.LoweredCapacityOverbooks` | internal/service/booking_service.go:430-436 | lowering a slot from two seats to one below two confirmed seats overbooks it |
| `BookingTheorems.ServeOrigin` | internal/service/booking_service.go:528-725 | no operation makes up a reservation or alters one except by settling a pending one |
| `BookingTheorems.RunHistory` | internal/service/booking_service.go:677-709 | through any run a reservation stays in the list with its id, owner, party and slot, and once settled never changes |
| `BookingTheorems.RunTotals` | internal/service/booking_service.go:710-717 | the confirmed seats of a slot id are exactly those taken by accepted confirmations: they never decrease, whatever happens to the slot |
| `BookingTheorems.IdsAreNeverReused` | internal/service/booking_service.go:587-591 | an id given to one reservation is never given to another in any later state |
| `BookingLaws.UpsertedSlots` | internal/service/booking_service.go:457-465 | after an accepted upsert the stored slots are the new one and exactly those with other ids |
| `BookingLaws.WrittenTwice` | internal/service/booking_service.go:886-919 | writing a written catalog again changes nothing |
| `BookingLaws.UpsertSlotTwice` | internal/service/booking_service.go:370-466 | repeating an upsert gives the same answer and changes nothing more |
| `BookingLaws.RemoveUndoesUpsert` | internal/service/booking_service.go:468-511 | removing a slot that an upsert has just made takes the catalog back to what it was |
| `BookingLaws.ReserveThenConfirm` | internal/service/booking_service.go:641-725 | a reservation just made can be confirmed at once, and is then the one that was made |
| `BookingLaws.ReserveTwice` | internal/service/booking_service.go:528-612 | a pending reservation takes no seats: the same request sent again makes another reservation under another id |
| `BookingViews.BuildSlotViews` | internal/service/booking_service.go:1141-1208 | the listing loop returns the sorted views of the slots that pass the filters |
| `BookingAnswers.ShownExactly` | internal/service/booking_service.go:1141-1208 | a slot is shown exactly when it is of the asked product, starts in the window and, unless those are asked for too, is enabled with an enabled product and has a seat that no confirmed reservation takes |
| `BookingAnswers.ShownNameIsTheProducts` | internal/service/booking_service.go:1141-1208 | the name shown is that of the slot's product |
| `BookingAnswers.ListsAreChronological` | internal/service/booking_service.go:886-1001 | the stored slots, the stored reservations and the slot list are in the order of time |
| `BookingViews.ViewAddsUp` | internal/service/booking_service.go:1179-1186 | reserved and available seats add up to the capacity, and reserved is the smaller of capacity and confirmed seats |
| `BookingViews.SlotViewsAre` | internal/service/booking_service.go:1141-1208 | a view is listed exactly when its slot is stored and passes the filter |
| `BookingViews.ListedSlotsCanBeReserved` | internal/service/booking_service.go:528-584 | a request for a listed slot succeeds exactly when the listed free seats cover the party, and is a capacity conflict otherwise |
| `Draft.MergeForContinuation` | internal/service/booking_service_runtime.go:2534-2602 | the field-by-field merge with its one flag equals the merge and the override report of the specification |
| `Draft.OverrideIsReported` | internal/service/booking_service_runtime.go:2541-2581 | an override is reported exactly when the merge changed a tracked field that was filled in |
| `Draft.MergeFields` | internal/service/booking_service_runtime.go:2543-2589 | a merged field is filled in exactly when one of the two readings fills it, and a filled one changes only with permission to override |
| `Draft.MergeTakes` | internal/service/booking_service_runtime.go:2543-2589 | each tracked field is the new reading's where that has one and the old has none or must give way, and the old one's everywhere else |
| `DraftRules.MergeOfTheRest` | internal/service/booking_service_runtime.go:2534-2602 | product name and typed time are the draft's, else the message's; the confidence is raised to the message's exactly when the draft has none or must give way to a higher one |
| `Draft.MergeMissing` | internal/service/booking_service_runtime.go:2787-2805 | what is missing after a merge is exactly what both readings miss |
| `Draft.MergeRaisesConfidence` | internal/service/booking_service_runtime.go:2590-2594 | confidence never falls, and a permitted override lifts it by at least the delta to at least the minimum |
| `Continuation.EnrichCandidates` | internal/service/booking_service_runtime.go:2807-2880 | the two candidate loops with their seen-sets find each match once, and fill product and slot |
| `Continuation.FilledProductIsTheOnlyMatch` | internal/service/booking_service_runtime.go:2847-2849 | a product is filled in only if it is in the catalog and is the only one that fits the message |
| `DraftOutcomes.OnlyProductIsFilled` | internal/service/booking_service_runtime.go:2807-2880 | conversely, where one product of the catalog fits a message that names none, it is filled in |
| `DraftRules.OnlySlotIsFilled` | internal/service/booking_service_runtime.go:2807-2880 | a slot that fits is filled in exactly when all slots that fit are that one |
| `DraftRules.FittingProduct` | internal/service/booking_service_runtime.go:2807-2880 | a product fits by its id, or when the name in the message occurs in its name or id or its name in that |
| `DraftRules.FittingSlot` | internal/service/booking_service_runtime.go:2807-2880 | a slot fits by its id or its start, and only if it is of the known product |
| `Continuation.FilledSlotBelongs` | internal/service/booking_service_runtime.go:2851-2879 | a filled-in slot is in the catalog, starts at the named time and belongs to the known product |
| `Continuation.ContinueFields` | internal/service/booking_service_runtime.go:2378-2386 | one continuation keeps filled fields filled and changes them only with permission |
| `Continuation.ConfidenceNeverDrops` | internal/service/booking_service_runtime.go:2534-2602 | over any number of continuations the confidence does not fall |
| `Continuation.MissingNeverGrows` | internal/service/booking_service_runtime.go:2378-2386 | nor does the list of missing fields grow |
| `Continuation.OverridesAreBounded` | internal/service/booking_service_runtime.go:68-70 | the permitted overrides of any run are at most two, one from the minimum confidence on, none from the minimum and a delta on, for the 64-bit values of the two constants |
| `Continuation.DraftsConverge` | internal/service/booking_service_runtime.go:2534-2602 | a filled-in tracked field changes at most twice in any conversation |
| `Continuation.TwoChangesHappen` | internal/service/booking_service_runtime.go:68-70 | two changes do happen |
| `Continuation.RoundingDecidesNothing` | internal/service/booking_service_runtime.go:2537-2538 | rounding the difference of two 64-bit confidences never decides whether a reading may override, so exact arithmetic gives the answer of the program |
| `DraftService.FindLatestDraft` | internal/service/booking_service_runtime.go:2488-2522 | the argmax loop returns the specified draft index |
| `DraftService.LatestIsLatest` | internal/service/booking_service_runtime.go:2488-2522 | that index is the latest eligible draft, the first of equals |
| `DraftService.FindContinuableDraft` | internal/service/booking_service_runtime.go:2471-2486 | the search tries the own channel first, then any |
| `DraftService.ContinuableIsTheLatest` | internal/service/booking_service_runtime.go:2471-2522 | a message continues the latest open draft of its user from the last day, one of its own channel if there is any |
| `DraftService.NothingToContinue` | internal/service/booking_service_runtime.go:2471-2486 | none is continued exactly when the user is blank or has no eligible draft |
| `DraftRules.ContinuesExactly` | internal/service/booking_service_runtime.go:2471-2532 | a message continues a draft exactly when its user is named and has an open draft touched within 24 hours; it continues such a one, of its own channel if there is one |
| `DraftRules.ContinuesTheLatest` | internal/service/booking_service_runtime.go:2488-2532 | it is the latest of those it is chosen from |
| `DraftRules.ConversationGoesOn` | internal/service/booking_service_runtime.go:2331-2469 | whatever message was stored, the next one of the same user within a day continues a draft |
| `DraftService.DraftController.ParseIntentDraft` | internal/service/booking_service_runtime.go:2375-2469 | the stored drafts after a message are those of the specification |
| `DraftOutcomes.MessageContinues` | internal/service/booking_service_runtime.go:2375-2469 | a message that continues a draft changes that one only: its data, what is missing, its candidates, text, time and a channel it did not have |
| `DraftOutcomes.MessageStarts` | internal/service/booking_service_runtime.go:2375-2469 | any other message starts one draft of its user, channel and text under the next number, with what the message says, and changes no other |
| `DraftOutcomes.ContinuationTakes` | internal/service/booking_service_runtime.go:2534-2602 | each field of the continued draft is the message's where it has one and the draft has none or must give way, and the draft's everywhere else that it has one |
| `DraftService.DraftController.ConfirmIntentDraft` | internal/service/booking_service_runtime.go:2644-2724 | drafts, books and answer after a confirmation, with the unnoticed failure of the last write |
| `DraftOutcomes.ConfirmedCarriesDraft` | internal/service/booking_service_runtime.go:2644-2717 | the reservation made from a draft has its user, and each datum of the request where that fills it in and the draft's everywhere else: product, slot, party size, contact name and phone, members, requirements; that draft alone is closed, under the number of the reservation; a refusal changes neither drafts nor books |
| `DraftOutcomes.ConfirmedExactly` | internal/service/booking_service_runtime.go:2644-2717 | it is made exactly when the draft is open, its user is named, nothing is missing once the request is put over it, there is room and the file can be written |
| `DraftTheorems.NoDraftsOk` | internal/service/booking_service_runtime.go:2269-2284 | the draft list without a file has distinct ids, each of them issued |
| `DraftTheorems.ParseKeepsOk` | internal/service/booking_service_runtime.go:2375-2469 | a message changes at most one draft, an open one of its user, and only by one continuation; draft ids stay distinct |
| `DraftTheorems.ClosedDraftsNeverChange` | internal/service/booking_service_runtime.go:2488-2495 | a draft that is no longer open stays as it is through any run |
| `DraftTheorems.ConfirmedOnce` | internal/service/booking_service_runtime.go:2667-2671 | a draft makes at most one reservation in any run without overlapping confirmations, provided it was written back |
| `DraftTheorems.LostWriteLeavesDraftOpen` | internal/service/booking_service_runtime.go:2709-2717 | the draft is closed to a second confirmation exactly when that write succeeded |
| `DraftTheorems.LostWriteReservesTwice` | internal/service/booking_service_runtime.go:2644-2717 | whenever that write is lost, the same confirmation is accepted again and makes a second reservation |
| `DraftTheorems.ConfirmationOverrides` | internal/service/booking_service_runtime.go:2733-2759 | a confirmation replaces exactly the fields it fills in, and the members whenever it lists any, even none |
| `DraftTheorems.CheckedDraftIsComplete` | internal/service/booking_service_runtime.go:2672-2692 | a draft with nothing missing passes every input check of the booking service but the one on the user |
| `SecurityKeys.NormalizeScopes` | internal/service/security_keys.go:50-74 | the loop returns the named scopes, both of them when it names none |
| `SecurityListing.ScopesMean` | internal/service/security_keys.go:50-74 | the scopes of a list are those it names in any case; those of the defaults where it is empty; both where nothing is named |
| `SecurityKeys.ScopeTextsRoundTrip` | internal/service/security_keys.go:50-90 | writing and reading scopes changes nothing |
| `SecurityKeys.KeyTable.MergeSecurityRecord` | internal/service/security_keys.go:442-494 | the maps updated in place equal the specified merge, and an error changes nothing |
| `SecurityKeys.MergeKeepsInverse` | internal/service/security_keys.go:469-493 | after any merge `tokenOwner` is exactly the inverse of the records |
| `SecurityKeys.MergeFailsWhen` | internal/service/security_keys.go:449-486 | a merge fails exactly for an unknown scope, or for a third party with another token when the new one belongs to nobody |
| `SecurityKeys.MergeCovers` | internal/service/security_keys.go:469-493 | a merge takes no token or scope from anybody and gives the record's token an owner with its scopes |
| `SecurityKeys.MergeGivesExactly` | internal/service/security_keys.go:442-494 | after a merge the owner of the record's token has exactly its scopes before and those of the record; every other token has exactly the scopes it had; owners stay, and a token without one gets the third party of the record |
| `SecurityKeys.MergeTouchesOne` | internal/service/security_keys.go:469-493 | only the record of that owner is touched: a new time of change for a known one, all its own data for a newcomer |
| `SecurityMigration.ParseSecurityTokenRecords` | internal/service/security_keys.go:136-198 | the reading loop returns the specified table or its first error |
| `SecurityListing.ListMeans` | internal/service/security_keys.go:136-198 | a third party is kept exactly when some item lists it, with exactly the scopes that its items name |
| `SecurityListing.ListedTokens` | internal/service/security_keys.go:160-195 | all items of a third party carry the token that is kept for it |
| `SecurityListing.FirstCreationIsKept` | internal/service/security_keys.go:175-190 | it keeps the first time of creation that its items give |
| `SecurityListing.LastChangeIsKept` | internal/service/security_keys.go:175-190 | and the last time of change |
| `SecurityListing.ItemRefusedExactly` | internal/service/security_keys.go:150-174 | an item is refused exactly for an empty or unknown scope, a token of another third party, or a second token |
| `SecurityMigration.ParsedTableIsClean` | internal/service/security_keys.go:136-198 | whatever is read is a clean table in which no two third parties share a token |
| `SecurityMigration.WriteSecurityTokenRecords` | internal/service/security_keys.go:290-337 | any records are written exactly when all scopes are valid and no two third parties share a token; what is written reads back exactly when no third party has two tokens, and then gives their normalized form |
| `SecurityMigration.WriteThenParse` | internal/service/security_keys.go:290-337 | the same for every order of writing |
| `SecurityMigration.WriteTable` | internal/service/security_keys.go:290-337 | a clean table without shared tokens is written without error and read back as it is |
| `SecurityMigration.NextClientId` | internal/service/security_keys.go:496-508 | the search for a free id ends, and returns the first free one |
| `SecurityMigration.ParseLegacyWebhookRecords` | internal/service/security_keys.go:222-248 | the old list becomes a clean table, or an error exactly when no entry is valid |
| `SecurityMigration.LastEntryIsKept` | internal/service/security_keys.go:230-244 | of several old entries for one third party the last valid one is kept |
| `SecurityMigration.SupersededTokenIsLost` | internal/service/security_keys.go:230-244 | the token of an earlier entry is not that of any last entry when a later entry of its third party has another |
| `SecurityMigration.ParseLegacyKeys` | internal/service/security_keys.go:250-276 | exactly the old keys, trimmed, without blanks and repetitions, in strict order; an error exactly when there is none |
| `SecurityMigration.MigrateWebhooks` | internal/service/security_keys.go:360-378 | no merge fails; a token has an owner exactly when some old entry carries it, and exactly the scopes of the entries that do |
| `SecurityMigration.MigrateKeys` | internal/service/security_keys.go:382-401 | the same for the booking keys, under fresh ids: each key gains the booking scope and nothing else changes |
| `SecurityMigration.Migrate` | internal/service/security_keys.go:339-410 | refused exactly when an old file holds nothing valid; otherwise written without error and read back by the next start, and a token has an owner exactly when it is that of the last valid entry of some third party or a booking key, with exactly the scopes of those entries, and the booking scope if it is a key; the owner was made when his last entry says, else now |
| `Backoff.AdaptivePollInterval.constructor` | internal/service/email_receive_command.go:861-884 | defaults replace non-positive settings, and the base is cut at the maximum |
| `Backoff.AdaptivePollInterval.OnNoNew` | internal/service/email_receive_command.go:890-900 | after k empty polls the interval is min(max, base + step * (k div n)) |
| `Backoff.AdaptivePollInterval.OnDetected` | internal/service/email_receive_command.go:902-906 | a detection resets it to the base |
| `Backoff.RunPolls` | internal/service/email_receive_command.go:890-906 | for any mix of polls the interval depends on the empty ones since the last detection only, and stays in [base, max] |
| `MailMonitor.CollectNewUids` | internal/service/email_receive_command.go:908-917 | the loop returns the new UIDs in ascending order |
| `MailMonitor.MaxUidIsMax` | internal/service/email_receive_command.go:919-927 | the highest UID, 0 for none |
| `MailMonitor.CutKeepsNew` | internal/service/email_receive_command.go:1357-1360 | looking at the newest Limit messages finds every new one exactly when at most Limit are new |
| `MailRuns.MailMonitorCommand.PollOnce` | internal/service/email_receive_command.go:585-618 | one tick and the handling of its batch leave position, watermark and cursor as specified |
| `MailRuns.MailMonitorCommand.BeginCall` | internal/service/email_receive_command.go:565-576 | a call without a position starts at the newest message present |
| `MailRuns.CallNotifiesNew` | internal/service/email_receive_command.go:565-618 | a call hands over one batch at most, newest first: only messages above the position and, without one, none that was there when it began; position and cursor follow the batch |
| `MailRuns.FreshInv` | internal/service/email_receive_command.go:351-360 | a monitor that starts satisfies the invariants, with or without a saved cursor or a start position |
| `MailRuns.NeverTwice` | internal/service/email_receive_command.go:361-395 | across calls, polls and restarts at or above everything notified, batches only climb and no message is notified twice |
| `MailRuns.SavedCursorsAreSafe` | internal/service/email_receive_command.go:349-395 | without a start position and with every cursor saved, every restart is at or above everything notified |
| `MailRuns.RestartIsSafe` | internal/service/email_receive_command.go:349-395 | no continuation after a restart notifies an earlier message again exactly when the process starts at or above everything notified so far |
| `MailRuns.RestartRepeats` | internal/service/email_receive_command.go:349-360 | two restarts below what was notified: after a lost cursor and with a start position |
| `MailRuns.NeverSkipped` | internal/service/email_receive_command.go:564-620 | from a saved position on every matching message that a poll finds has been notified by the end of that poll, for ascending UIDs, complete fetches and at most Limit new ones |
| `McpFrames.FrameReader.ReadMcpFrame` | internal/service/booking_mcp_command.go:861-904 | the reading loop returns the specified frame, end or error and leaves exactly the rest of the stream |
| `McpFrames.FrameIsRead` | internal/service/booking_mcp_command.go:861-904 | a frame with any other headers before and after its length is read back, and what follows is untouched |
| `McpFrames.OtherHeadersAreIgnored` | internal/service/booking_mcp_command.go:878-886 | headers other than Content-Length never change what is read |
| `McpFrames.LastLengthDecides` | internal/service/booking_mcp_command.go:861-904 | for any header lines: of several lengths the last one counts, and the body is as long as it says, or the stream was cut |
| `McpFrames.BadHeadersAreRefused` | internal/service/booking_mcp_command.go:881-898 | a header with a length that is no number or negative is refused, and so is one without a length |
| `McpFrames.LongLineIsRefused` | internal/service/booking_mcp_command.go:874-876 | a line over 8192 bytes is refused wherever it stands in the header |
| `McpFrames.LengthFormsAreRead` | internal/service/booking_mcp_command.go:881-894 | a length may be written with its name in any case and with blanks around name and digits |
| `McpFrames.ServeFrames` | internal/service/booking_mcp_command.go:334-354 | the server loop handles the specified frames in order |
| `McpFrames.ServeWritten` | internal/service/booking_mcp_command.go:906-922 | serving written frames handles every body that is not blank and then goes on with what follows |
| `McpFrames.StreamRoundTrip` | internal/service/booking_mcp_command.go:906-922 | serving the frames written for any bodies gives exactly those bodies and then the end |
| `McpFrames.CutIsReported` | internal/service/booking_mcp_command.go:866-904 | a stream cut inside a frame is reported exactly when the cut falls inside the body; otherwise it ends like a complete one |
| `Monitors.MonitorTable.Claim` | internal/service/daemon_command.go:170-219 | a running key is refused, otherwise table and record are claimed together |
| `Monitors.MonitorTable.StopByTarget` | internal/service/daemon_command.go:1357-1409 | the runtime of the configuration is stopped, else the runtime of that number, else the stored configuration is paused |
| `Monitors.MonitorTable.StopAll` | internal/service/daemon_command.go:1484-1504 | the loop empties the table and pauses exactly the running keys |
| `Monitors.MonitorTable.RemoveByConfigId` | internal/service/daemon_command.go:1411-1437 | the configuration and exactly its runtimes go |
| `Monitors.MonitorTable.RollBack` | internal/service/daemon_command.go:222-233 | a failed save takes the runtime and restores the record |
| `Monitors.NothingStartedInv` | internal/service/daemon_command.go:100-109 | the daemon starts with the invariant |
| `Monitors.StepKeepsInv` | internal/service/daemon_command.go:154-276 | every step keeps keys unique, the table in step with the live goroutines, and everything let go told to stop |
| `Monitors.OneRuntimePerKey` | internal/service/daemon_command.go:170-219 | in every interleaving at most one runtime of a key has not been told to stop, and it is the one in the table |
| `Monitors.ExitKeepsReplacement` | internal/service/daemon_command.go:242-252 | the end of an old runtime never removes its replacement |
| `Monitors.LaterIdsAreLarger` | internal/service/daemon_command.go:208-209 | runtime numbers are never reused |
| `MonitorOutcomes.StartMeans` | internal/service/daemon_command.go:170-219 | a start adds one runtime of its key; a stored one makes its line the stored one and the configuration active, under the name it had before; nothing else changes |
| `MonitorOutcomes.StartedIsRestored` | internal/service/daemon_command.go:328-352 | a stored start is repeated by the next process with the same line, even when the monitor has ended by itself, unless it is stopped, paused, removed, rolled back or started anew in between |
| `MonitorOutcomes.RetiredIsNotRestored` | internal/service/daemon_command.go:328-352 | what was stopped, paused or removed is not started by a later process, whatever else happens, until it is started again |
| `MonitorOutcomes.NamesAreUnique` | internal/service/daemon_command.go:170-233 | a name never stands for two stored configurations, in any run, through removals, failed saves and late rollbacks |
| `MonitorOutcomes.RemovalTakesItsOwn` | internal/service/daemon_command.go:1411-1437 | so removing by name takes that configuration and the runtime of its key, and no other |
| `MonitorOutcomes.RuntimeNumbersAreRead` | internal/service/daemon_command.go:1459-1469 | a runtime is named by its number, with or without `run-` in any case; zero names none |
| `Monitors.FailedSaveTurnsBack` | internal/service/daemon_command.go:170-233 | whatever happened since the start, a failed save puts the entry of its key back to what it was before the start and leaves the others alone |
| `Monitors.FailedSaveKeepsRunning` | internal/service/daemon_command.go:221-233 | after a failed save all running keys keep their stored configurations exactly when the key of the start does not run by another start, or its entry is as before the start |
| `Monitors.RemovedReappears` | internal/service/daemon_command.go:221-233 | a failed save brings a configuration back exactly when it is that of the key, was stored before the start and was removed since |
| `Monitors.RemovalIsUndone` | internal/service/daemon_command.go:221-233 | such a run: start a stored key, remove its configuration, fail the save |
| `Monitors.FailedStartIsUndone` | internal/service/daemon_command.go:221-233 | a failed start with nothing in between leaves table and records as they were |
| `Monitors.LateRollbackDropsRecord` | internal/service/daemon_command.go:221-233 | with a stop and another start in between, the rollback drops the stored configuration of the running monitor |
| `MonitorFile.FileIsEarlier` | internal/service/daemon_command.go:147-153 | in every interleaving of changes, clones and writes the state file of the monitors is the one at the beginning or shows the records of an earlier moment as a whole |
| `MonitorFile.FileIsLastLanded` | internal/service/daemon_command.go:147-153 | it shows the records as they were when the write that landed last was cloned, and is up to date exactly when nothing has changed them since that clone |
| `MonitorFile.SavesOutOfOrder` | internal/service/daemon_command.go:147-153 | a start whose save is overtaken by an earlier clone reports success and runs, but is not in the file |
| `Text.ParseIntOfDecimal` | internal/service/booking_service.go:1095-1101 | reading a printed number gives it back |

## Left out

- Pipeline.SegmentsAndTokenizer: stated for texts of characters; Go's `strings.TrimSpace` and the scanners work on runes of UTF-8 text, and invalid UTF-8 is not modelled.
- Text.Lower: lower-cases ASCII letters only; Go's `strings.ToLower` and `strings.EqualFold` also fold other letters.
- Text.ParseInt: integers are unbounded; the overflow errors of `strconv.ParseInt` and `strconv.Atoi`, and the wrap-around of 64-bit counters, are not modelled.
- TaskCommand.PlanTask: the schedule and the options of `task add`, which are checked before the command part, are left out.
- TaskProtocol.Apply: tasks run on intervals or on an abstract next-run function of the schedule's step; cron parsing and duration texts are not modelled.
- TaskManager.DaemonTaskManager: a task is a value in the manager's map rather than an object shared with its worker; last status, last error and creation time are left out.
- TaskManager.DaemonTaskManager.Load: a state file that cannot be read or parsed is left out; ids in the state file are taken as distinct and trimmed; a file edited by hand that lists one id twice would start two workers for it.
- TaskFiles.TasksAreConserved: a process that stops between saving the state and appending the history is not modelled.
- TaskTheorems.RunnableTaskRuns: says that a run can be reached by worker and clock alone; fairness of the Go scheduler is not modelled.
- Idempotency.PublicIdempotencyStore.Handle: headers of a replayed response, the reading of the request body and the hash itself are left out; hashes are compared as they are.
- BookingServices.BookingService: a write stores everything or nothing; `os.WriteFile` may leave a partial file. Creation and update times of products and slots, and files that cannot be read, are left out.
- BookingServices.BookingService.UpsertSlot: a stored start or end is an instant; text that does not parse is modelled for callers' input only.
- BookingServices.BookingService.CreateReservation: the two files are read under one lock, so the books are one value; the view returned to the caller is modelled in BookingViews only for slots.
- BookingServices.BookingService.TransitionReservation: the view returned to the caller is left out.
- BookingViews.BuildSlotViews: the reservation list is left out: it keeps the reservations of the user and the status asked for, newest first, and joins each with its product, slot and free seats.
- Continuation.OverridesAreBounded: a confidence that is not a number, which a text in the model's answer can give, is left out; the program then permits no override.
- Continuation.EnrichCandidates: the text of a start time is given its instant by a parameter.
- DraftService.DraftController.ParseIntentDraft: the language model's reading is a parameter; failures of reading the draft file, and the action, the list of updated fields and the match reason of the answer, are left out.
- DraftService.DraftController.ConfirmIntentDraft: overlapping confirmations of one draft; the program releases its lock around the reservation, so two of them can each make one.
- SecurityKeys.NormalizeScopes: a clean scope list is a set; its order on disk is the order of the names.
- SecurityMigration.Migrate: the JSON text, the backup copies of the old files and files that cannot be read are left out.
- SecurityMigration.ParseLegacyWebhookRecords: the JSON text is a list of entries.
- SecurityMigration.ParseLegacyKeys: the JSON text is the list of both key fields.
- MailRuns.MailMonitorCommand: messages are UIDs; the IDLE and hybrid loops, reconnects, hooks and message bodies are left out. UIDs of 32 bits and a mailbox whose UIDVALIDITY changes are not modelled.
- MailRuns.Restarted: a cursor file that cannot be read at the start, which the program logs and treats as no position, is not modelled.
- MailRuns.NeverSkipped: assumes that the server returns the messages it is asked for, as does the program.
- McpFrames.FrameReader: header lines are ASCII; I/O errors other than the end of the stream are left out.
- McpFrames.StreamRoundTrip: the JSON of a response is an arbitrary body, with fewer than ten to the 8000 bytes.
- Monitors.MonitorTable: monitor loops and contexts beyond "cancelled" are left out.
- MonitorOutcomes.StartedIsRestored: is about the stored configurations; the next process reads them from the state file, which holds them as `MonitorFile.FileIsLastLanded` says. A line that is no monitor command any more, which the program drops at its start, is not modelled.
- MonitorOutcomes.NamesAreUnique: starts from names that the daemon gave; a state file edited by hand can hold any.
- MonitorFile.FileIsLastLanded: a write is one step; two writes at the same instant can mix their bytes. Reading the file at the start of the daemon is left out.
- HTTP servers, IMAP and SMTP clients and process control: what they do is decided by libraries, the network and the operating system.
- The command tree, completion, rendering of tables and log rotation: they read the state modelled here and change none of it.
- Several processes working on the same files: the mutexes are local to a process.
