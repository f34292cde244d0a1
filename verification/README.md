# Verified model of the TradingAgents-CN state machines and rewriting loops

The repository is mostly prompts, providers and user interface. This project models the
few places that keep state by hand and proves what they promise, over all inputs and all
interleavings:

- **The Redis task worker** (`app/worker.py`, with the enqueue step of
  `app/services/queue_service.py`). Any number of workers are program counters over one shared
  Redis, one command per step. Every command may be answered, may raise, or may be cut short by
  a cancellation or a crash, and in those cases it may or may not have taken effect; a reply
  lost on the network is therefore one of the faults. `ProcessTask` has the imperative loop and
  the method with its two nested handlers and proves them equal to the program counter.
- **Two passes that rewrite source files** (`scripts/fix_logger_position.py`,
  `scripts/fix_duplicate_loggers.py`). The theorems are stated for any way of reading a line
  (`LoggerPass.Reader`, `DuplicateLoggers.Matcher`) and instantiated with the Python text tests;
  the methods pop and insert by index in place and are proved equal to one-pass filters.
- **The display buffer and the chunk loop of the command line** (`cli/main.py`): bounded message
  lists, agent statuses, report sections with their derived texts, and the handler that
  drives them through one chunk and through a whole stream.
- **Four import and repair loops** (`scripts/import_config_and_create_user.py`,
  `scripts/fix_market_quotes_null_code.py`, `scripts/fix_null_full_symbol.py`,
  `scripts/akshare_sync_optimized.py`): loops over a snapshot that read and write a live
  collection.

## Layout

| files | content |
|---|---|
| `WorkerProtocol`, `WorkerSafety`, `WorkerTheorems`, `WorkerProgress`, `WorkerWitness`, `WorkerCancel`, `ProcessTask` | the worker: steps, invariant, theorems over runs, progress, concrete bad runs, cancelling, the imperative form |
| `LoggerScan`, `LoggerRewrite`, `LoggerSettling`, `LoggerPass`, `LoggerPosition`, `LoggerText`, `LineEdits`, `PyText` | the position pass: scanner, rewriting, repeated runs, theorems for any reader, the script on lines of text, how Python text is read and rewritten |
| `DuplicateLoggers` | the duplicate pass |
| `DisplayBuffer`, `StreamReducer`, `ChunkHandler`, `ReportTexts`, `StreamTheorems` | the buffer, the table of status updates, the chunk handler, the texts it leaves, whole streams |
| `BsonConvert`, `ConfigImport`, `ImportKeys`, `ImportTheorems`, `EnvConfig`, `EnvLines` | conversion, import in both modes, the identifying fields, theorems over imports, the `.env` reader and its single lines |
| `Snapshot`, `NullCodeRepair`, `FullSymbol`, `AkshareSync` | the repair and synchronisation loops |
| `Wrappers` | the optional value |

`dafny verify dfyconfig.toml` checks everything.

## Where the code does not do what it says

Each of these is a lemma with the exact condition, most with a concrete witness beside it.

- The queue is called first in, first out (`queue_service.py:61,91`), but `LPUSH` and the
  worker's `BLPOP` act on the same end: the newest task is served first, and a pop takes the
  oldest one exactly when only one waits (`OldestFirstIff`, `LaterTaskFirst`).
- A task that is cut off between `SADD` and `SREM` stays in the processing set as long as nobody
  cancels it, and as many of them as the limit in force stop every later enqueue
  (`LeaksBlockTheQueue`). The clean-up in `queue_service.py:273-299` does not help: it looks at
  visibility timeouts, which this worker never sets. Cancelling (`queue_service.py:331-356`) frees
  such a task exactly while its stored status is `processing` or a cancellation under way has
  read that (`LeakCanBeFreedIff`); three workers killed after storing their results fill the
  default limit for ever (`ThreeLeaks`, `PermanentLeaksBlock`).
- A finished task can still be cancelled: it stays in its terminal set and its status becomes
  `cancelled`. A task in a terminal set shows the status of that set exactly when it is not
  cancelled, torn tasks aside (`TerminalShownIff`, `FinishedIsOverwritten`).
- A task can end in both terminal sets, exactly when the reply to the `SADD` of the completed
  set is lost and the outer handler then fails the task (`TerminalOverlap`, `ReturnMeansSettled`,
  `LostReplyOverlaps`).
- A cancellation that fails between its two commands takes a waiting task off the list and leaves
  its status as queued: nobody will ever process it (`FailedCancelLosesTask`).
- The logger position pass is not idempotent: a second run reports a fix again exactly when the
  first inserted a line and either more than twenty blank lines follow the imports, or a
  definition stands nineteen or twenty lines below them (`SecondRunIff`, `GapFixedTwice`,
  `EdgeFixedTwice`). The text is the same after that second run exactly when nothing but blank
  lines is left below the imports (`SecondRunSameTextIff`); with too many blank lines and
  something after them, every run after the first makes the file one line longer
  (`BlankGapGrows`). Which files are never finished is settled by `NeverFinishedIff`; twenty blank
  lines can be enough (`EdgeNeverFinished`). A file that is ever finished is finished after eleven
  runs (`ElevenRunsFinish`).
- The duplicate pass announces one remaining definition; it leaves more exactly when a later
  definition is written with other spacing than the literal text it looks for (`OneLeftIff`,
  `TwoLeft`).
- The panel is meant to show the most recently updated section. It does exactly when the update
  has text and no section later in the dictionary is set, or when it showed the same text already
  and is not written (`PanelShowsUpdateIff`, `LaterSectionStays`, `EmptyTextKeepsPanel`).
- When the same state is streamed again, the research plan is rebuilt only if the bull's latest
  line is not empty; otherwise the bear's and the manager's texts are appended once more
  (`RepeatKeepsPlanIff`). A plan that the bull has not started begins with the word `None`
  (`PlanStartsWithNoneIff`; both in `DecisionAddedTwice`).
- On an unreadable port the `.env` reader announces the default configuration but keeps
  everything set by the lines before it, so the announcement is true exactly when those lines
  repeat the defaults (`AnnouncedDefaultsIff`, `BadPortKeepsHost`). An explicit database name that is empty
  or the default loses to the fallbacks behind it, with the exact condition in
  `ExplicitNameHoldsIff` and a file in `FallbackReplacesDefault`.
- Overwriting a collection deletes it first and raises on a repeated `_id`, so the result is the
  converted input exactly when the ids brought along are all different (`Overwritten`,
  `SameIdTwice`).
- Which of two new documents is imported can depend on their order, exactly when one of them
  answers the query of the other but not the other way round (`OrderDecidesIff`), as with a
  document that has only part of a composite key (`OrderDecides`) or a document whose name is
  null beside one without a query (`NullAnsweredByAnything`).
- With a batch size of zero every stock that does not raise is counted twice, once as it ended and
  once as failed, so the counters add up exactly when no stock gets that far (`SyncStockBasicInfo`,
  `ZeroBatchCountsTwice`).

## Model

| member | source | states |
|---|---|---|
| WorkerTheorems.RunKeepsInv | TradingAgents-CN/app/worker.py:54-203 | the invariant (one place per task, what each program point knows, terminal membership fixes the status) survives every interleaving, failure, cancellation and crash |
| WorkerSafety.HeldStep | TradingAgents-CN/app/worker.py:58-184 | every command of `process_task`, however it ends, turns what is known at its line into what the next line needs |
| WorkerSafety.WorkKeepsInv | TradingAgents-CN/app/worker.py:187-203 | a step of one worker leaves the tasks, the ready list and the holders of all others intact |
| WorkerSafety.ProducerKeepsInv | TradingAgents-CN/app/services/queue_service.py:54-98 | enqueueing step by step, losing an untouched hash and stopping keep the invariant |
| WorkerTheorems.StatusOnlyClimbs | TradingAgents-CN/app/worker.py:64-181 | along every run of workers and producer, that is without cancelling, a stored status only climbs queued, processing, completed, failed |
| WorkerTheorems.StatusNeverGoesBack | TradingAgents-CN/app/worker.py:64-181 | so a started task is never queued again, a completed one is processed no more, and a failed one stays failed |
| WorkerTheorems.TerminalForever | TradingAgents-CN/app/worker.py:159-183 | along every run of workers and producer, that is without cancelling, membership in a terminal set is permanent and fixes the status, then and in every later state |
| WorkerTheorems.TerminalOverlap | TradingAgents-CN/app/worker.py:166-183 | the terminal sets overlap exactly in the failed tasks whose `SADD` to completed took effect unseen |
| WorkerTheorems.TornOnlyByLostReply | TradingAgents-CN/app/worker.py:167-183 | no task is torn exactly when no run step loses the reply of that `SADD` |
| WorkerTheorems.TerminalSetsDisjoint | TradingAgents-CN/app/worker.py:166-183 | without that one fault, under all others, no task is both completed and failed |
| WorkerTheorems.ExactlyOnePlace | TradingAgents-CN/app/worker.py:54-203 | the ready list and the workers hold a task exactly once, or not at all when it is finished, dropped, abandoned or with the producer |
| WorkerTheorems.ProcessingExact | TradingAgents-CN/app/worker.py:67-182 | the processing set is the tasks held between `SADD` and `SREM` and those abandoned there |
| WorkerTheorems.FaultlessKeepsAll | TradingAgents-CN/app/worker.py:54-203 | without faults nothing is abandoned and the processing set is exactly the held, marked tasks |
| WorkerTheorems.NothingUnaccounted | TradingAgents-CN/app/worker.py:187-203 | every id ever pushed is counted once: waiting, with a worker, or settled |
| WorkerTheorems.LeaksBlockTheQueue | TradingAgents-CN/app/services/queue_service.py:67-69 | along every run of workers and producer, that is as long as nobody cancels, leaked tasks stay in the processing set and stop every enqueue whose limit they reach |
| WorkerCancel.LeakCanBeFreedIff | TradingAgents-CN/app/services/queue_service.py:331-356 | with any cancellations of waiting, held, finished or abandoned tasks, command by command, a leaked task can leave the processing set exactly while its stored status is processing or a cancellation under way has read that |
| WorkerCancel.PermanentLeaksBlock | TradingAgents-CN/app/services/queue_service.py:331-356 | leaked tasks that cannot be freed stop every later enqueue whose limit they reach, whatever tasks are cancelled |
| WorkerCancel.OpKeepsInv | TradingAgents-CN/app/services/queue_service.py:331-356 | every command of workers, producer and cancellations keeps what cancelling leaves of the invariant: the status last written by worker or producer still matches the place of the task and its terminal sets |
| WorkerCancel.StepsAreRun | TradingAgents-CN/app/services/queue_service.py:331-356 | without cancellations the system runs as the protocol does |
| WorkerCancel.StatusWriteWins | TradingAgents-CN/app/worker.py:64-181 | a status that a worker writes replaces a cancelled one |
| WorkerCancel.TerminalShownIff | TradingAgents-CN/app/services/queue_service.py:331-356 | along every run with cancelling, a failed task, and a completed one that is not torn, shows the status of its set exactly when it is not cancelled; a task in both sets is torn and never shows completed |
| WorkerCancel.FinishedIsOverwritten | TradingAgents-CN/app/services/queue_service.py:338-353 | a finished task can be cancelled, which overwrites its status and leaves it in its set |
| WorkerCancel.CancelAtOnce | TradingAgents-CN/app/services/queue_service.py:331-356 | a cancellation that nothing interrupts takes the task from the list or the set that its status names, and from nowhere else |
| WorkerCancel.QueuedTaskIsTakenOff | TradingAgents-CN/app/services/queue_service.py:345-353 | a waiting task leaves the ready list and the others keep their order |
| WorkerCancel.FailedCancelLosesTask | TradingAgents-CN/app/services/queue_service.py:345-360 | a cancellation that fails after the removal leaves a waiting task in no list and no set, with the status of a waiting task |
| WorkerCancel.ThreeLeaks | TradingAgents-CN/app/worker.py:159-166 | from the start three workers can be killed between storing the result and SREM, which leaves as many permanent leaks as the default limit |
| WorkerTheorems.NewestFirst | TradingAgents-CN/app/services/queue_service.py:91-92 | a pop takes the most recently pushed task |
| WorkerTheorems.OldestFirstIff | TradingAgents-CN/app/worker.py:192-196 | it takes the oldest one exactly when a single task waits |
| WorkerWitness.LostReplyOverlaps | TradingAgents-CN/app/worker.py:167-183 | one worker, one task and one lost reply put the task in both terminal sets |
| WorkerWitness.LaterTaskFirst | TradingAgents-CN/app/services/queue_service.py:88-92 | after two enqueues the later task is at the end the worker pops |
| WorkerProgress.WorkPaysDebt | TradingAgents-CN/app/worker.py:54-203 | whatever fails, a step that touches a task lowers the measure and an idle one leaves it |
| WorkerProgress.QueueDrains | TradingAgents-CN/app/worker.py:187-203 | in every run, under any faults, at most fourteen commands are issued per pushed task |
| WorkerProgress.NoDebtNoTask | TradingAgents-CN/app/worker.py:187-203 | when the measure is used up no task waits and no worker holds one |
| WorkerProgress.StopEndsWorker | TradingAgents-CN/app/worker.py:187-203 | after stop a worker takes at most one more task, if it was already waiting, and leaves within fifteen steps |
| WorkerProgress.OnlyLeaversRest | TradingAgents-CN/app/worker.py:187-203 | a worker that can take no step has left and holds nothing |
| WorkerProgress.LeavesOnlyWhenTold | TradingAgents-CN/app/worker.py:190-203 | a worker leaves the loop only when it finds stop set or is cancelled, and dies only in a crash; an empty list or an exception never ends it |
| WorkerProgress.TakesWaitingTask | TradingAgents-CN/app/worker.py:190-203 | from any state without stop, a worker that has not left takes the waiting task by answered steps of its own, after the rest of its task, its pause and its polls |
| WorkerProgress.WaitIsBounded | TradingAgents-CN/app/worker.py:54-203 | these are at most as many steps as one task takes, and the pop |
| WorkerProgress.StopIsSeen | TradingAgents-CN/app/worker.py:190 | once the stop event is set a worker leaves at its next test |
| WorkerProgress.LostHashIsDropped | TradingAgents-CN/app/worker.py:58-63 | a waiting task whose hash has gone is popped and dropped, and the worker polls again |
| WorkerProgress.FaultsAnywhere | TradingAgents-CN/app/worker.py:187-203 | a worker may die at every place, be cancelled wherever it awaits, and see an exception wherever something can raise |
| ProcessTask.RedisClient.ProcessTask | TradingAgents-CN/app/worker.py:54-184 | the method with its nested handlers changes the data and ends exactly as the program counter does, for every outcome of every command |
| ProcessTask.RedisClient.RunAndSettle | TradingAgents-CN/app/worker.py:70-170 | the outer try with the inner try and its handler does the same from the parameters on |
| ProcessTask.RedisClient.OuterHandler | TradingAgents-CN/app/worker.py:174-184 | so does the outer handler, whose own failures reach the caller |
| ProcessTask.RedisClient.TakeTurn | TradingAgents-CN/app/worker.py:190-203 | one turn of the loop, with the timeout that polls again and the handler that sleeps, ends exactly as the program counter does, whatever other clients do before the pop |
| ProcessTask.RedisClient.WorkerLoop | TradingAgents-CN/app/worker.py:187-203 | any number of turns: the loop is the run of the program counter and goes on until it is told to stop |
| ProcessTask.PossibleIffAnswers | TradingAgents-CN/app/worker.py:187-203 | for a worker with a task, the outcomes a step can meet are exactly the ways the commands of the imperative form can end |
| ProcessTask.ReturnMeansSettled | TradingAgents-CN/app/worker.py:58-184 | a normal return leaves an existing, non-terminal task out of processing and in a terminal set; in exactly one, the one its status names, unless every command of a successful task was answered up to the last SADD and only its reply was lost, and then in both |
| LoggerScan.MisplacedInRange | TradingAgents-CN/scripts/fix_logger_position.py:106-146 | misplaced positions ascend and are definitions more than twenty lines below the imports and docstrings |
| LoggerPosition.AnalyzeFileStructure | TradingAgents-CN/scripts/fix_logger_position.py:52-113 | the flag-driven loop finds what the scanner over classified lines finds |
| LoggerPosition.AnalyzeLine | TradingAgents-CN/scripts/fix_logger_position.py:70-111 | one turn of the loop is one step of that scanner |
| LoggerPosition.CollectMisplaced | TradingAgents-CN/scripts/fix_logger_position.py:140-146 | the loop collects exactly the late definitions, in order |
| LoggerPosition.SkipBlankLines | TradingAgents-CN/scripts/fix_logger_position.py:167-173 | the insertion point is behind all blank lines below the correct position |
| LoggerPosition.SourceFile.PopBackwards | TradingAgents-CN/scripts/fix_logger_position.py:161-163 | popping from the back by index deletes exactly the given lines |
| LoggerPosition.SourceFile.InsertStatement | TradingAgents-CN/scripts/fix_logger_position.py:175-181 | the statement goes in with an empty line behind it unless nothing follows |
| LoggerPosition.SourceFile.FixLoggerPosition | TradingAgents-CN/scripts/fix_logger_position.py:115-192 | the pass reports a fix exactly when the guards allow one and leaves the file as the specification says |
| LoggerPosition.PythonIsSound | TradingAgents-CN/scripts/fix_logger_position.py:70-106 | a stripped Python line is classified as the line itself, so the theorems for readers apply |
| PyText.StripKeepsText | TradingAgents-CN/scripts/fix_logger_position.py:71 | a stripped line is the part of the line between the space at its ends |
| PyText.CountsTwoIff | TradingAgents-CN/scripts/fix_logger_position.py:77 | a count of at least two means exactly that the quotes stand at two places that do not overlap |
| PyText.DefinesLoggerIff | TradingAgents-CN/scripts/fix_logger_position.py:106 | a line matches the pattern exactly when it is the four tokens with any space in front of each, and then anything |
| LoggerText.OpenerIff | TradingAgents-CN/scripts/fix_logger_position.py:74-79 | a docstring that opens on a line closes on it exactly when its quotes stand there once more behind the first ones |
| LoggerText.CodeReadAs | TradingAgents-CN/scripts/fix_logger_position.py:93-107 | when a line of code is an import, when it imports the logging functions, and when it defines the logger, by what its text begins with and holds |
| LoggerText.DefinitionMovesUp | TradingAgents-CN/scripts/fix_logger_position.py:115-181 | a file of a one-line docstring, an import, other lines and a definition is rewritten exactly when there are more than twenty other lines, and then the definition, stripped, and an empty line stand right below the import |
| LoggerText.PythonDefinitionMovesUp | TradingAgents-CN/scripts/fix_logger_position.py:52-192 | the same on Python text, whatever the docstring says, whatever is imported, and for any indentation and arguments of the definition |
| LoggerText.TwentyFiveLines | TradingAgents-CN/scripts/fix_logger_position.py:52-192 | a concrete file of twenty-eight lines and its text after the pass |
| LoggerPass.SecondRunIff | TradingAgents-CN/scripts/fix_logger_position.py:136-181 | the exact condition under which a second run rewrites again; otherwise it changes nothing |
| LoggerPass.BlankGapGrows | TradingAgents-CN/scripts/fix_logger_position.py:167-181 | with too many blank lines, something after them and no proper definition, every run reports a fix and every run after the first adds a line |
| LoggerPass.SecondRunSameTextIff | TradingAgents-CN/scripts/fix_logger_position.py:136-181 | the second run leaves the text as it is exactly when it reports no fix or nothing but blank lines is left below the imports |
| LoggerPass.BareTextStays | TradingAgents-CN/scripts/fix_logger_position.py:161-176 | on such a bare file the second run reports a fix and leaves the text as it is |
| LoggerPass.NeverFinishedIff | TradingAgents-CN/scripts/fix_logger_position.py:136-181 | the exact condition under which every run, for ever, reports a fix |
| LoggerPass.FinishedForGood | TradingAgents-CN/scripts/fix_logger_position.py:148-149 | after a run without a fix the text never changes again |
| LoggerPass.ElevenRunsFinish | TradingAgents-CN/scripts/fix_logger_position.py:136-181 | a file is never finished exactly when the twelfth run still reports a fix, and otherwise its text does not change after the eleventh |
| LoggerPass.GapFixedTwice | TradingAgents-CN/scripts/fix_logger_position.py:167-181 | a file with twenty-one blank lines that is fixed twice |
| LoggerPass.EdgeFixedTwice | TradingAgents-CN/scripts/fix_logger_position.py:140-181 | a file with a definition twenty lines below the import that is fixed twice |
| LoggerPass.EdgeNeverFinished | TradingAgents-CN/scripts/fix_logger_position.py:140-181 | a file with twenty blank lines that is never finished |
| LoggerPass.FixConserves | TradingAgents-CN/scripts/fix_logger_position.py:151-181 | without the inserted line and its empty line the output is the input minus the misplaced definitions, in order |
| LoggerPass.RemovedAreLate | TradingAgents-CN/scripts/fix_logger_position.py:140-163 | every removed line is a definition more than twenty lines below, so the insertion index stays valid |
| LoggerRewrite.SecondRunAgainIff | TradingAgents-CN/scripts/fix_logger_position.py:52-181 | the same condition over classified lines: removal and insertion leave the docstring and import ends as they were |
| LoggerRewrite.TailIsQuiet | TradingAgents-CN/scripts/fix_logger_position.py:67-111 | below the last import and docstring the scanner records definitions only, with no docstring closing there |
| LoggerRewrite.NeverSettles | TradingAgents-CN/scripts/fix_logger_position.py:167-181 | a drifting file drifts for ever, one line a run after the first |
| LoggerSettling.NeverStopsIff | TradingAgents-CN/scripts/fix_logger_position.py:52-181 | the condition for never finishing over classified lines |
| LoggerSettling.StopsByLastRun | TradingAgents-CN/scripts/fix_logger_position.py:52-181 | a file that is ever finished is finished after one run, two runs or one cycle, as its case is |
| LoggerSettling.PushedLateIff | TradingAgents-CN/scripts/fix_logger_position.py:140-176 | after n runs behind the same blank lines a definition is late exactly when an old one is just pushed out, or n exceeds the cycle |
| LoggerSettling.SecondRunSameIff | TradingAgents-CN/scripts/fix_logger_position.py:136-181 | when the second run leaves the classified lines as they are |
| DuplicateLoggers.DropIsFilter | TradingAgents-CN/scripts/fix_duplicate_loggers.py:138-147 | deleting the chosen indices is one filter pass from the top |
| DuplicateLoggers.FilterTwice | TradingAgents-CN/scripts/fix_duplicate_loggers.py:98-163 | a second run changes nothing |
| DuplicateLoggers.FilterKeepsFirst | TradingAgents-CN/scripts/fix_duplicate_loggers.py:115-136 | everything up to and including the first definition stays |
| DuplicateLoggers.OneLeftIff | TradingAgents-CN/scripts/fix_duplicate_loggers.py:142-147 | one definition is left exactly when every later one has the literal text |
| DuplicateLoggers.TwoLeft | TradingAgents-CN/scripts/fix_duplicate_loggers.py:142-147 | two definitions without spaces around the equals sign are both left |
| DuplicateLoggers.IndentedGoes | TradingAgents-CN/scripts/fix_duplicate_loggers.py:45-147 | a second definition with the text is deleted at any indentation and with any arguments |
| DuplicateLoggers.AnalyzeLoggerDefinitions | TradingAgents-CN/scripts/fix_duplicate_loggers.py:33-56 | the positions found are all lines the pattern matches |
| DuplicateLoggers.FindImportSectionEnd | TradingAgents-CN/scripts/fix_duplicate_loggers.py:58-96 | the end is the line after the last import in front of the first statement, docstrings, comments and blank lines skipped |
| DuplicateLoggers.InImportSectionIff | TradingAgents-CN/scripts/fix_duplicate_loggers.py:58-96 | which lines count as imports |
| DuplicateLoggers.ChooseDuplicates | TradingAgents-CN/scripts/fix_duplicate_loggers.py:118-136 | the first definition is kept and the others chosen wherever the imports end |
| DuplicateLoggers.SourceFile.PopDuplicates | TradingAgents-CN/scripts/fix_duplicate_loggers.py:138-147 | popping from the back deletes the chosen lines that hold the text, and counts them |
| DuplicateLoggers.SourceFile.FixDuplicateLoggers | TradingAgents-CN/scripts/fix_duplicate_loggers.py:98-163 | the script leaves the filtered file, the change count is the length drop, and the first definition is reported |
| DisplayBuffer.PushKeepsLast | TradingAgents-CN/cli/main.py:154-156 | a bounded deque stays the last entries of its whole history |
| DisplayBuffer.MessageBuffer.AddMessage | TradingAgents-CN/cli/main.py:189-191 | the message is added and the buffer stays valid |
| DisplayBuffer.MessageBuffer.AddToolCall | TradingAgents-CN/cli/main.py:193-195 | the same for tool calls |
| DisplayBuffer.MessageBuffer.UpdateAgentStatus | TradingAgents-CN/cli/main.py:197-200 | only a known agent's status changes, and the key set never does |
| DisplayBuffer.MessageBuffer.UpdateReportSection | TradingAgents-CN/cli/main.py:202-205 | only a known section changes, and panel and complete report follow it |
| DisplayBuffer.MessageBuffer.UpdateCurrentReport | TradingAgents-CN/cli/main.py:207-234 | the panel shows the latest set section if it has text and keeps its old text otherwise |
| DisplayBuffer.MessageBuffer.UpdateFinalReport | TradingAgents-CN/cli/main.py:236-282 | the complete report is the rendering of the current sections |
| DisplayBuffer.MessageBuffer.Reset | TradingAgents-CN/cli/main.py:1162-1170 | all agents pending, all sections and both reports empty, and the buffer still valid |
| DisplayBuffer.RenderShows | TradingAgents-CN/cli/main.py:236-282 | every section with text is in the complete report |
| DisplayBuffer.RenderNoneIff | TradingAgents-CN/cli/main.py:282 | there is no complete report exactly when no section has text |
| ReportTexts.ReportParts | TradingAgents-CN/cli/main.py:236-282 | the parts of the complete report with their headings, in order, from the texts of the seven sections |
| ReportTexts.JoinConcat | TradingAgents-CN/cli/main.py:282 | the parts are joined by one empty line |
| ReportTexts.PanelReads | TradingAgents-CN/cli/main.py:202-231 | the title line of each section in the panel |
| ReportTexts.DictionaryOrder | TradingAgents-CN/cli/main.py:206-212 | the panel takes the last section that is set, from the final decision down to the market report |
| DisplayBuffer.PanelShowsUpdateIff | TradingAgents-CN/cli/main.py:202-234 | after an update the panel shows the updated section exactly when it has text and no later section is set, or when it showed that very text before and is not written |
| DisplayBuffer.LaterSectionStays | TradingAgents-CN/cli/main.py:207-231 | a market report updated after the final decision is not shown |
| DisplayBuffer.EmptyTextKeepsPanel | TradingAgents-CN/cli/main.py:212-231 | an update of the final decision with empty text leaves the panel as it was |
| StreamReducer.UpdatesGiveStatus | TradingAgents-CN/cli/main.py:1298-1563 | replaying the status updates of a chunk, in the order of the code, leaves every agent as a closed table says |
| StreamReducer.ReplayIsFold | TradingAgents-CN/cli/main.py:197-200 | the statuses after a log of updates are, agent by agent, the last update for it |
| ChunkHandler.LastLineFollowsBreak | TradingAgents-CN/cli/main.py:1399-1400 | the latest response is the text after the last line break |
| ChunkHandler.UpdateTeam | TradingAgents-CN/cli/main.py:950-960 | the four members of the research team are updated in order |
| ChunkHandler.AnalystTeam | TradingAgents-CN/cli/main.py:1298-1380 | each report is filed, completes its author and starts the next selected analyst or the research team |
| ChunkHandler.ResearchTeam | TradingAgents-CN/cli/main.py:1382-1450 | bull, bear and manager change the plan, the messages and the statuses as specified |
| ChunkHandler.TradingTeam | TradingAgents-CN/cli/main.py:1452-1471 | the trader's plan is filed and the risk debate starts |
| ChunkHandler.RiskTeam | TradingAgents-CN/cli/main.py:1473-1563 | each speaker overwrites the decision, the last one wins, and a verdict completes the team |
| ChunkHandler.HandleChunk | TradingAgents-CN/cli/main.py:1270-1563 | one chunk: every status, section, message and tool call afterwards, and the buffer valid |
| ReportTexts.PlanReads | TradingAgents-CN/cli/main.py:1389-1444 | the plan after a chunk, word for word: the bull's last line under its heading or else the earlier text, then the bear's last line and the decision under theirs |
| ReportTexts.PlanEndsWithDecision | TradingAgents-CN/cli/main.py:1425-1444 | what the manager decided ends the plan, under its heading |
| ReportTexts.PlanKeepsBefore | TradingAgents-CN/cli/main.py:1408-1444 | without a line of the bull the earlier text stays in front |
| StreamTheorems.HandleStream | TradingAgents-CN/cli/main.py:1270-1568 | the loop over a stream leaves every agent and section where the tables, chunk after chunk, say, and adds exactly their messages and tool calls |
| StreamTheorems.NeverDropsIff | TradingAgents-CN/cli/main.py:1298-1563 | an agent never steps back from one chunk end to the next exactly when no chunk reopens it after one finished it |
| StreamTheorems.PersistentNeverDrops | TradingAgents-CN/cli/main.py:1298-1563 | if report and decision fields stay present once present, no agent ever steps back |
| StreamTheorems.FinishedStaysCompleted | TradingAgents-CN/cli/main.py:1298-1563 | then an agent whose report or decision was in any chunk with messages is completed at the end |
| StreamTheorems.ReportGoneReopens | TradingAgents-CN/cli/main.py:1310-1314 | without persistence a market report reopens a completed social analyst |
| StreamTheorems.DropsInsideIff | TradingAgents-CN/cli/main.py:1298-1563 | inside a chunk a completed agent steps back exactly when one of the listed fields puts it to work again |
| StreamTheorems.RepeatChangesOnlyThePlan | TradingAgents-CN/cli/main.py:1298-1563 | the same state streamed twice leaves all statuses and all sections but the plan as after once |
| StreamTheorems.RepeatKeepsPlanIff | TradingAgents-CN/cli/main.py:1389-1444 | and the plan exactly when the bull's latest line is not empty or there is nothing to append; otherwise it grows |
| StreamTheorems.PlanStartsWithNoneIff | TradingAgents-CN/cli/main.py:1419-1444 | a first plan begins with the word None exactly when the bull has no line |
| StreamTheorems.DecisionAddedTwice | TradingAgents-CN/cli/main.py:1425-1444 | a chunk with a manager's decision alone, streamed twice: the plan begins with None and the decision is added again |
| BsonConvert.FieldChangesIff | TradingAgents-CN/scripts/import_config_and_create_user.py:224-243 | a string field changes exactly when its key selects it and it parses, the id test before the date test |
| BsonConvert.SelectedKeysIff | TradingAgents-CN/scripts/import_config_and_create_user.py:226-235 | keys that end in the id ending are tried as ids, and those that end in the date ending, with the last login, as dates |
| BsonConvert.ConvertTwice | TradingAgents-CN/scripts/import_config_and_create_user.py:220-250 | the conversion is idempotent on every nested value |
| BsonConvert.ConvertKeepsPaths | TradingAgents-CN/scripts/import_config_and_create_user.py:220-250 | the same paths lead somewhere before and after, and what is found is the conversion of what was found |
| BsonConvert.ConvertKeepsShape | TradingAgents-CN/scripts/import_config_and_create_user.py:220-250 | keys and list lengths stay, and only strings directly under selected keys change |
| ConfigImport.QueryAsksForOwnFields | TradingAgents-CN/scripts/import_config_and_create_user.py:190-212 | a query asks for fields of the document with their own values, and only for the id when there is one |
| ConfigImport.QueryIsFirstCandidate | TradingAgents-CN/scripts/import_config_and_create_user.py:190-212 | the query restricts the document to the first of its candidate field sets that is not empty: id, unique keys with a value, the tool fallback, username, name, key |
| ConfigImport.NoQueryIff | TradingAgents-CN/scripts/import_config_and_create_user.py:190-212 | there is no query exactly when the document has no id, no unique key with a value and none of the fallback fields |
| ImportKeys.KeysAreListed | TradingAgents-CN/scripts/import_config_and_create_user.py:173-187 | the identifying fields are those of the table |
| ImportKeys.BothStoredIff | TradingAgents-CN/scripts/import_config_and_create_user.py:173-201 | of two new documents of a listed collection both are stored exactly when a listed field with a value in the second is missing in the first or has another value there; otherwise only the first |
| ImportKeys.BindingsAreStored | TradingAgents-CN/scripts/import_config_and_create_user.py:185 | two agents of one tool, and two tools of one agent, are both stored |
| ConfigImport.Collection.InsertMany | TradingAgents-CN/scripts/import_config_and_create_user.py:362-364 | ordered insertion takes the longest prefix with different ids |
| ConfigImport.ImportCollection | TradingAgents-CN/scripts/import_config_and_create_user.py:345-397 | both modes leave the collection and the counts that the specifications of the modes give, for every collection and input |
| ConfigImport.Overwrite | TradingAgents-CN/scripts/import_config_and_create_user.py:357-371 | overwriting ends with the converted input exactly when the ids are different, and otherwise raises with the prefix before the repeated id |
| ConfigImport.SameIdTwice | TradingAgents-CN/scripts/import_config_and_create_user.py:357-364 | two documents with one id: the import raises, the old documents are gone and only the first new one is stored |
| ConfigImport.Increment | TradingAgents-CN/scripts/import_config_and_create_user.py:373-397 | the loop is the import fold, and inserted plus skipped is the number of documents |
| ConfigImport.UntakenIsAccepted | TradingAgents-CN/scripts/import_config_and_create_user.py:378-391 | a document that nothing stored answers is taken by the database unless its id is a list |
| ConfigImport.AddAllHolds | TradingAgents-CN/scripts/import_config_and_create_user.py:357-366 | a collection filled from empty holds every document in order, changed by a generated id at most |
| ImportTheorems.OldDocumentsStay | TradingAgents-CN/scripts/import_config_and_create_user.py:373-397 | the old documents are an unchanged prefix |
| ImportTheorems.NothingLost | TradingAgents-CN/scripts/import_config_and_create_user.py:378-391 | after the import every document with a query is answered by something stored |
| ImportTheorems.FirstPerQueryWins | TradingAgents-CN/scripts/import_config_and_create_user.py:378-391 | of documents with one query only the first can be inserted |
| ImportTheorems.InsertedIff | TradingAgents-CN/scripts/import_config_and_create_user.py:378-391 | a document is inserted exactly when nothing stored before its turn answers its query |
| ImportTheorems.InsertedInOrder | TradingAgents-CN/scripts/import_config_and_create_user.py:378-391 | the new documents are the inserted ones in the order of the input |
| ImportTheorems.SecondImport | TradingAgents-CN/scripts/import_config_and_create_user.py:373-397 | a second import adds exactly the documents without a query |
| ImportTheorems.SecondImportChangesNothingIff | TradingAgents-CN/scripts/import_config_and_create_user.py:373-397 | it changes nothing exactly when every document has a query |
| ImportTheorems.OrderDecidesIff | TradingAgents-CN/scripts/import_config_and_create_user.py:378-391 | the order of two new documents, with or without queries, changes how many are stored exactly when one answers the other's query but not the other way round |
| ImportTheorems.NullAnsweredByAnything | TradingAgents-CN/scripts/import_config_and_create_user.py:190-212 | a document whose name is null and one without a query: two are stored in one order and one in the other |
| ImportTheorems.OrderDecides | TradingAgents-CN/scripts/import_config_and_create_user.py:173-201 | a document with part of a composite key is skipped after a fuller one and imported before it |
| EnvConfig.LoadEnvConfig | TradingAgents-CN/scripts/import_config_and_create_user.py:34-93 | the loop yields, key by key, the meaning of the lines before the first bad port |
| EnvConfig.Readable | TradingAgents-CN/scripts/import_config_and_create_user.py:68-69 | those entries are all the ones in front of the first port that is not a number |
| EnvConfig.AnnouncedDefaultsIff | TradingAgents-CN/scripts/import_config_and_create_user.py:86-88 | with an unreadable port the result is the announced default configuration exactly when the lines before it repeat the defaults |
| EnvConfig.BadPortKeepsHost | TradingAgents-CN/scripts/import_config_and_create_user.py:86-88 | a file of two lines whose host stays although the port cannot be read |
| EnvConfig.MeaningStep | TradingAgents-CN/scripts/import_config_and_create_user.py:59-85 | one more line changes the meaning as the loop body changes the configuration |
| EnvLines.IgnoredIff | TradingAgents-CN/scripts/import_config_and_create_user.py:60-63 | a line sets nothing exactly when it is blank, a comment, or has no equals sign |
| EnvLines.LineIsParsed | TradingAgents-CN/scripts/import_config_and_create_user.py:60-66 | space around a name and its value does not matter |
| EnvLines.LineSets | TradingAgents-CN/scripts/import_config_and_create_user.py:60-85 | which field each of the eight names sets, behind any other lines, and that other names set nothing |
| EnvLines.NothingSet | TradingAgents-CN/scripts/import_config_and_create_user.py:46-54 | the configuration without any line |
| EnvConfig.NamesStartWithExplicit | TradingAgents-CN/scripts/import_config_and_create_user.py:76-81 | the candidates for the database name start with the last explicit name or the default |
| EnvConfig.ExplicitNameWins | TradingAgents-CN/scripts/import_config_and_create_user.py:76-81 | an explicit name that is neither empty nor the default wins wherever the fallbacks stand |
| EnvConfig.ExplicitNameHoldsIff | TradingAgents-CN/scripts/import_config_and_create_user.py:76-81 | for every file, the last explicit name is the database exactly when it is neither empty nor the default, or no fallback follows it, or all that follow are empty or the default and the last repeats it |
| EnvConfig.NamesAfterExplicit | TradingAgents-CN/scripts/import_config_and_create_user.py:76-81 | the candidates behind the last explicit name are the fallbacks that follow it, in order |
| EnvConfig.ExplicitDefaultLoses | TradingAgents-CN/scripts/import_config_and_create_user.py:76-81 | behind any lines, an explicit name followed by a fallback holds if it is neither empty nor the default and loses otherwise |
| EnvConfig.FallbackReplacesDefault | TradingAgents-CN/scripts/import_config_and_create_user.py:76-81 | a file of two lines in which the fallback replaces the explicit name |
| NullCodeRepair.QuoteCollection.FixNullCodeRecords | TradingAgents-CN/scripts/fix_market_quotes_null_code.py:35-88 | the live collection ends as a closed function of the snapshot, fixed plus deleted is the number listed, and the size drops by the deleted |
| NullCodeRepair.AfterStep | TradingAgents-CN/scripts/fix_market_quotes_null_code.py:58-86 | each turn keeps a quote exactly when its symbol is no code yet |
| NullCodeRepair.KeptIff | TradingAgents-CN/scripts/fix_market_quotes_null_code.py:58-86 | a listed quote is kept exactly when it has a symbol that no stored code is and no quote listed before it has, and then the symbol is its code |
| NullCodeRepair.CodesAfter | TradingAgents-CN/scripts/fix_market_quotes_null_code.py:58-86 | the codes after any number of turns are the old ones and the symbols seen |
| NullCodeRepair.NoNullCodeLeft | TradingAgents-CN/scripts/fix_market_quotes_null_code.py:90-95 | no quote is left without a code, the others are untouched, and the repaired ones have their symbol |
| NullCodeRepair.EverySymbolIsACode | TradingAgents-CN/scripts/fix_market_quotes_null_code.py:61-77 | in any listing order the codes at the end are the old ones and every symbol listed |
| NullCodeRepair.UniqueAfterIff | TradingAgents-CN/scripts/fix_market_quotes_null_code.py:61-77 | the codes are unique afterwards exactly when the stored ones were before |
| FullSymbol.SuffixIff | TradingAgents-CN/scripts/fix_null_full_symbol.py:48-62 | a six-character code gets the suffix of an exchange exactly when it begins with a prefix of that exchange, so the prefixes exclude each other |
| FullSymbol.SymbolTwice | TradingAgents-CN/scripts/fix_null_full_symbol.py:32-62 | the symbol of a symbol is itself |
| FullSymbol.SameSymbolIff | TradingAgents-CN/scripts/fix_null_full_symbol.py:32-62 | two codes get one symbol exactly when they are equal up to spaces or one already is the symbol of the other |
| FullSymbol.CodeReadBackIff | TradingAgents-CN/scripts/fix_null_full_symbol.py:32-62 | the code can be read back from its symbol exactly when it has no dot |
| FullSymbol.DistinctCodesDistinctSymbols | TradingAgents-CN/scripts/fix_null_full_symbol.py:32-62 | the symbol is injective on trimmed codes without dots |
| FullSymbol.StockCollection.FixNullFullSymbol | TradingAgents-CN/scripts/fix_null_full_symbol.py:113-168 | the collection afterwards, record by record with the symbol on its exchange, and success, error and skipped each as the number of records without a symbol that end that way; they add up to the records |
| FullSymbol.EachIsRepaired | TradingAgents-CN/scripts/fix_null_full_symbol.py:113-168 | a record without a full symbol but with a code gets the code with the suffix of its exchange if the update is carried out, and nothing else changes |
| FullSymbol.SymbolOnExchange | TradingAgents-CN/scripts/fix_null_full_symbol.py:32-62 | the symbol is the trimmed code with the suffix of the exchange whose prefix it has, or the code itself |
| FullSymbol.StillMissing | TradingAgents-CN/scripts/fix_null_full_symbol.py:113-168 | the records still empty are the skipped ones and the errors whose update was not carried out |
| FullSymbol.StillMissingIff | TradingAgents-CN/scripts/fix_null_full_symbol.py:113-168 | their number is error plus skipped exactly when no update was carried out without being reported |
| FullSymbol.RepairedApart | TradingAgents-CN/scripts/fix_null_full_symbol.py:132-146 | records repaired from different dot-free codes have different symbols |
| AkshareSync.UpsertIsExact | TradingAgents-CN/scripts/akshare_sync_optimized.py:113-117 | an upsert stores the code, keeps all other documents and adds at most one |
| AkshareSync.CodesAfter | TradingAgents-CN/scripts/akshare_sync_optimized.py:95-150 | a code has a document afterwards exactly when it had one or a fetch of it was stored |
| AkshareSync.PassKeepsOnePerCode | TradingAgents-CN/scripts/akshare_sync_optimized.py:113-117 | one document per code is kept |
| AkshareSync.OnFailedListIff | TradingAgents-CN/scripts/akshare_sync_optimized.py:126-150 | a code is on the failed list exactly when one of its stocks was not reported as stored, or the batch size is zero |
| AkshareSync.EveryStockAccounted | TradingAgents-CN/scripts/akshare_sync_optimized.py:95-150 | every coded stock was stored by this pass or is on the failed list |
| AkshareSync.LostReplyStoresAndFails | TradingAgents-CN/scripts/akshare_sync_optimized.py:113-150 | a stock whose update is carried out but answered by an exception is stored and listed for a retry |
| AkshareSync.InfoAfter | TradingAgents-CN/scripts/akshare_sync_optimized.py:107-117 | the document of a code holds the fields of its last stored fetch, or what it held before if there was none |
| AkshareSync.FinishedNoneIff | TradingAgents-CN/scripts/akshare_sync_optimized.py:135-145 | no stock reaches the statistics exactly when every coded one raises |
| AkshareSync.ZeroBatchCountsTwice | TradingAgents-CN/scripts/akshare_sync_optimized.py:124-150 | with a batch size of zero one stored stock counts as a success and a failure and is listed for a retry |
| AkshareSync.MainLoop | TradingAgents-CN/scripts/akshare_sync_optimized.py:89-150 | the counters, the failed list and the collection after the main loop, for every batch size |
| AkshareSync.RetryLoop | TradingAgents-CN/scripts/akshare_sync_optimized.py:167-198 | the retries upsert what they fetch and never count more than the list |
| AkshareSync.SyncStockBasicInfo | TradingAgents-CN/scripts/akshare_sync_optimized.py:74-208 | when the counters add up to the total, the length of the saved list, which codes are stored in the end and what their documents hold, and that every coded stock was stored by the main loop or is on the saved list |

## Left out

- Redis, MongoDB, files, the network and the clock: commands are steps on sets, maps and sequences with nondeterministic outcomes, and timestamps, log messages, progress percentages and rate arithmetic do not appear.
- The analysis itself, the providers and the language model graph: they return anything or raise.
- The rest of the queue service: dequeue, acknowledge, batches, visibility timeouts, their clean-up and the per-user limit; the worker takes tasks with BLPOP and never uses them.
- WorkerCancel.OpKeepsInv: the per-user processing sets and the visibility timeouts that a cancellation also clears are not modelled.
- Signals other than through the stop event, and a hash deleted while its task is being worked on.
- Task hashes are reduced to the status; results, errors and time fields are not kept.
- Regular expressions and string tests work on ASCII white space; other Unicode spaces and line ends are not modelled.
- Reading and splitting files, directory walks and report files of the two source passes, and their handling of unreadable files.
- The rich display, prompts, the log-file wrappers around the buffer, the success notices shown once, and the closing step of `run_analysis` after the stream.
- ChunkHandler.HandleChunk: a chunk is given by the text of each field, so missing keys, null and empty text are one value, and tool arguments are one text.
- ConfigImport.ImportCollection: indexes other than the one on the id, operator documents as queried values, and the order of keys in nested documents are not modelled.
- EnvConfig.LoadEnvConfig: which texts are numbers is a parameter, as are the object ids and dates of the conversion.
- Creating the default administrator, connecting and choosing collections in the import script.
- Other programs that write the collections while the repair loops work.
- AkshareSync.SyncStockBasicInfo: cancellation, which the loops do not catch, and the values of the fetched fields beyond one number per document.
