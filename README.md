# multirunner in Dafny

multirunner runs a stream of JSON items through a pool of worker processes. Each worker
runs a handler function from a job specification. The workers talk to the orchestrator
over a line protocol on stdin and stdout.

This project models the core of multirunner:

- **The orchestrator** (`multirunner/runner.py`) is module `Runner`. It covers:
  - how many workers to start, and how the specification names an interpreter and a
    handler script;
  - the handshake that accepts a freshly started worker;
  - the `JobRunner` bookkeeping that seeds workers, refills them as replies arrive,
    replaces broken ones, counts SIGINTs and cleans up at the end of `run`.
- **The resource statistics** (the same file's `StatsCollector`) are module `Stats`.
- **The Python worker** (`multirunner/handlers/python.py`) is module `Worker`. It covers:
  - the capture of `sys.stdout`/`sys.stderr`;
  - `validate_spec` with its four phase labels;
  - the per-item record;
  - the `OK`/`ERROR` line protocol of `main`.
- **The older worker** (`multirunner/python.py`) is module `LegacyWorker`.
- **The command line** (`multirunner/__main__.py`) is module `Cli`. It covers:
  - the specification checks and the override part of `load_spec`;
  - the `--loglevel` resolution;
  - how `main` writes result lines and picks its exit status.
- **The helpers of `multirunner/utils.py`** are module `Utils`: the signal counter, the
  `read_wait` loop and the interpreter choice.
- **Shared values** are in `Common`: `Option`, `Result`, JSON values and the string
  operations the protocol applies.

Classes carry the state the source updates in place: `JobRunner`, `StatsCollector`,
`OutputCapture` with a `Sys` object for the interpreter's stream slots, and
`SignalReceiver`. Their methods are proved against functions of the old state. Everything
the programs do to the outside world is a parameter of the model:

- processes, pipes, `select`, clocks;
- `json.loads`, the temporary file, module import, and calls of user code.

A worker is a number that serves as its pid and as the descriptor number of its stdout.

The code behaves as follows where a reader might expect otherwise; the model follows
the code:
- The handshake accepts `ok` in any letter case, with surrounding whitespace, rather than
  only the literal `OK`.
- Worker start-up stops at the first rejected handshake and reports only that worker's
  failure. It does not collect a diagnostic from every worker.
- A worker whose pipe breaks is replaced, not treated as a fatal error of the pool.
  Replacement stops after a SIGINT or after one failed replacement.
- The orchestrator yields the raw reply lines; it does not decode them.
- The reply of a worker is dropped when the write of its refill item raises. That item
  goes back to the front of the stream.
- After rejecting its specification, the worker writes `ERROR` and the record and returns
  normally. It does not exit with status 1.
- A dictionary `exec_type` whose `executable` does not start with `!` can never start a
  worker. The field must be a string to pass the `startswith` test, and starting a worker
  calls `executable.copy()`, which a string does not have. The `AttributeError` escapes
  `setup`.
- A failed setup is reported with status 2 only when its record is an object with `when`
  and `stack`. A worker that sends any other JSON value after `ERROR` makes the
  `err['when']` subscript raise, and the process exits with status 1.

## Model

Reference functions without a contract of their own (such as `Cli.SpecAfter`,
`Utils.Wait` and `Stats.Updated`) are described by the rows of the lemmas and methods
proved against them.

| member | source | states |
|---|---|---|
| Common.EnsureNewline | multirunner/runner.py:40-42 | the result ends with a line terminator, starts with the text, is at most one character longer, and equals the text exactly when the text already ended with a terminator |
| Common.EnsureNewlineIdempotent | multirunner/runner.py:341-343 | appending the terminator a second time changes nothing |
| Common.Strip | multirunner/runner.py:47 | `strip()` is no longer than its input, neither starts nor ends with whitespace, leaves trimmed text unchanged and keeps ASCII text ASCII |
| Common.StripSlice | multirunner/runner.py:47 | `strip()` removes exactly a whitespace prefix and a whitespace suffix, and is empty exactly when the text is all whitespace |
| Common.Upper | multirunner/runner.py:47 | on ASCII text `upper()` maps character by character |
| Common.AsciiOnly | multirunner/runner.py:48-49 | `encode('ascii', 'ignore')` keeps only ASCII characters and keeps ASCII text unchanged |
| Utils.Bumped | multirunner/utils.py:39-40 | one stored delivery adds the signal to the table, raises its count by one and leaves other counts alone |
| Utils.DeliveredCounts | multirunner/utils.py:33-42 | after a series of deliveries each signal's count has grown by the number of times it was delivered |
| Utils.SignalReceiver.constructor | multirunner/utils.py:37-38 | an object starts with no `signals_recvd` table and no handler calls |
| Utils.SignalReceiver.Handle | multirunner/utils.py:35-41 | with `store` the table is created if absent and bumped for the signal; without it the table is untouched; the wrapped handler is called once either way |
| Utils.RemoveFirst | multirunner/utils.py:27 | `list.remove` drops one occurrence of a present value and changes nothing otherwise |
| Utils.Among | multirunner/utils.py:25 | `select` reports only streams it was asked about, each occurrence at most once |
| Utils.RemoveAll | multirunner/utils.py:26-27 | removing the reported streams leaves exactly the pending ones, as multisets |
| Utils.RemoveAllStep | multirunner/utils.py:26-27 | the first stream removed is pending, and the rest can be removed from what remains |
| Utils.MinReady | multirunner/utils.py:12-13 | `min_ready` defaults to the number of streams |
| Utils.WaitPartition | multirunner/utils.py:15-31 | the streams returned extend those already done and come from the original streams; the loop returns only once at least `min_ready` are ready or all of them are |
| Utils.TimeoutRaises | multirunner/utils.py:18-23 | a pass whose clock reading exceeds the timeout raises `TimeoutError` |
| Utils.RemoveEach | multirunner/utils.py:26-27 | the removal loop computes `RemoveAll` |
| Utils.WaitStep | multirunner/utils.py:25-31 | a pass that does not time out either returns the streams found so far or goes on with the rest |
| Utils.ReadWait | multirunner/utils.py:10-31 | `read_wait` is the loop function; a returned list holds only given streams, and at least `min_ready` of them or all of them |
| Utils.FirstCommand | multirunner/utils.py:77-85 | the running interpreter when its version matches; otherwise the first candidate that exists, none before it existing; otherwise the default |
| Utils.Python2Cmd | multirunner/utils.py:77-85 | `sys.executable` under Python 2, else `python2`, else `python` |
| Utils.Python3Cmd | multirunner/utils.py:87-95 | `sys.executable` under Python 3, else `python3`, else `python`, else the default `python3` |
| Utils.NodeCmd | multirunner/utils.py:97-102 | `node.js`, else `node` |
| Runner.NProcs | multirunner/runner.py:183-193 | an explicit count wins; otherwise at least one, and more than one only when both budgets allow it |
| Runner.NProcsLargest | multirunner/runner.py:190-193 | no count that fits both budgets is larger than the one chosen |
| Runner.ReadyReplyAscii | multirunner/runner.py:46-50 | on an ASCII line the handshake is accepted exactly when the stripped line is `ok` in some letter case |
| Runner.AsciiOk | multirunner/runner.py:47-50 | ASCII text upper-cases to `OK` exactly when it spells `ok` in some letter case |
| Runner.Entry | multirunner/runner.py:234-237 | a `!name` entry is found exactly when the table has `name`, and is that table entry; any other text is used as given |
| Runner.Resolve | multirunner/runner.py:230-240 | a string names a preset in both tables, or resolution fails; a dictionary resolves exactly when its `executable` and `handler` are strings and each `!name` among them names a preset of its table, and then the executable is that preset's command or the text as given, and the handler that preset's handler or the text as given; a verbatim executable or handler only comes from a dictionary and never starts with `!` |
| Runner.ResolvePresetAsDictionary | multirunner/runner.py:231-240 | a preset name resolves like a dictionary naming `!name` for both fields |
| Runner.Prepare | multirunner/runner.py:220-257 | the first failing lookup gives its label (`getting exec_type`, `resolving executable/handler paths`, `getting exec_info`); success gives the resolution and `exec_info` |
| Runner.WorkerDiagnosticAsWritten | multirunner/runner.py:272-279 | undecodable worker output becomes a raw-text record labelled `decoding error (raw provided)` |
| Runner.WorkerRecordLost | multirunner/runner.py:272-279 | a worker record that decodes as JSON is lost and `None` is returned |
| Runner.WorkerDiagnostic | multirunner/runner.py:270-279 | the corrected record keeps the decoded worker record, and agrees with the as-written record whenever that one exists |
| Runner.Without | multirunner/runner.py:317 | deleting a worker leaves exactly the other workers |
| Runner.WithoutDistinct | multirunner/runner.py:391 | deleting a worker keeps the table order free of repeats |
| Runner.WithoutMember | multirunner/runner.py:388-391 | deleting a worker that occurs once removes exactly its position |
| Runner.Filter | multirunner/runner.py:352 | `select` returns exactly the readable waiters, in their order, without repeats |
| Runner.SentItems | multirunner/runner.py:369 | the items of the write log, in order |
| Runner.SentItemsAppend | multirunner/runner.py:369 | the items of two write logs in a row are their items in a row |
| Runner.Dispatch | multirunner/runner.py:378-382 | the `i`-th worker gets the `i`-th item, and the log's items are the items given out |
| Runner.SeedGrow | multirunner/runner.py:378-382 | one more seeded worker moves the write log and the remaining stream on by one |
| Runner.RetireGrow | multirunner/runner.py:388-391 | one more retired worker leaves the tables and joins the killed workers |
| Runner.SeededCount | multirunner/runner.py:378-382 | `seed_procs` serves workers in order while items remain, up to the first write that raises |
| Runner.SeededCountIs | multirunner/runner.py:378-382 | the stop point is the first position where the items run out or a write raises |
| Runner.JobRunner.constructor | multirunner/runner.py:139-172 | a runner starts with empty tables, the whole input in its stream, replacement on and no signals counted |
| Runner.JobRunner.Seed | multirunner/runner.py:362-373 | with no item left nothing is written; otherwise the next item is written, or on a raising write it is put back at the front of the stream |
| Runner.JobRunner.Retire | multirunner/runner.py:315-317 | the worker is killed and deleted from both tables and from the table order |
| Runner.JobRunner.NewWorker | multirunner/runner.py:265-269 | a started worker gets a number never used before |
| Runner.JobRunner.Register | multirunner/runner.py:281-284 | a started worker joins both tables at the end of the table order |
| Runner.JobRunner.Discard | multirunner/runner.py:336 | a started worker killed before it was tabled is recorded as killed |
| Runner.JobRunner.Leak | multirunner/runner.py:331 | a started worker whose first write raised is recorded as left running outside the tables |
| Runner.JobRunner.Terminate | multirunner/runner.py:293-295 | every worker in the tables is killed and the tables are kept |
| Runner.JobRunner.Clear | multirunner/runner.py:288 | both tables are emptied once every worker in them was killed |
| Runner.JobRunner.Join | multirunner/runner.py:264-284 | an accepted start appends the next worker number to the tables |
| Runner.JobRunner.Reject | multirunner/runner.py:270-289 | a rejected start kills the new worker and every tabled worker and empties the tables |
| Runner.JobRunner.Setup | multirunner/runner.py:216-291 | with the correction of the first finding applied (a rejected worker's decoded record is returned, where the source returns `None`): a failed lookup returns its labelled record and starts nothing; a verbatim executable raises at `copy()`; otherwise the pool result is success exactly when every handshake is accepted, with the workers tabled in order, and on failure the first rejected worker's record and every started worker killed and the tables empty |
| Runner.JobRunner.Configure | multirunner/runner.py:220-257 | the three lookups of `setup` compute `Prepare` and store the resolution and `exec_info` they find |
| Runner.JobRunner.StartPool | multirunner/runner.py:259-291 | with the correction of the first finding applied (the failure record is `WorkerDiagnostic`'s): the pool loop stops at the first rejected handshake, as `Setup` states |
| Runner.JobRunner.SeedProcs | multirunner/runner.py:375-391 | the first `SeededCount` workers get the first items, in order; when the items ran out the unserved workers are killed and deleted; when a write raised the tables are kept |
| Runner.JobRunner.SeedInOrder | multirunner/runner.py:376-382 | the first loop of `seed_procs` serves `SeededCount` workers and logs exactly their items |
| Runner.JobRunner.SeedNext | multirunner/runner.py:378-382 | one step of the seeding loop serves the next worker or stops it |
| Runner.JobRunner.RetireFrom | multirunner/runner.py:384-391 | the workers after the served prefix are killed and deleted |
| Runner.JobRunner.RetireNext | multirunner/runner.py:388-391 | one step of the deletion loop retires one more worker |
| Runner.JobRunner.HandleStream | multirunner/runner.py:310-318 | the reply is returned and the worker refilled; with the items exhausted the worker is killed and deleted; a raising refill drops the reply and keeps the item |
| Runner.JobRunner.HandleBrokenStream | multirunner/runner.py:320-338 | the broken worker is killed and deleted; after a SIGINT or with replacement off nothing else happens; otherwise a replacement is started, tabled and seeded when accepted, killed when no item is left, left running when its write raises, and replacement is switched off when its handshake fails |
| Runner.JobRunner.Respawn | multirunner/runner.py:327-338 | the replacement half of `handle_broken_stream` |
| Runner.JobRunner.Answer | multirunner/runner.py:328-338 | a rejected replacement is killed and switches replacement off |
| Runner.JobRunner.Admit | multirunner/runner.py:330-336 | an accepted replacement is seeded and tabled, killed with no item left, or left running when the write raises |
| Runner.JobRunner.Visit | multirunner/runner.py:353-359 | one readable worker is handled; its reply is returned, or `handle_broken_stream` runs when the refill raised |
| Runner.JobRunner.Loop | multirunner/runner.py:347-359 | `IterationCompleted` exactly when no worker is left; otherwise the readable workers are handled in table order and their non-empty replies yielded, except the dropped ones; while replacement works, leftover items keep a worker |
| Runner.JobRunner.VisitNext | multirunner/runner.py:353-359 | one step of the `for` loop of `loop` |
| Runner.JobRunner.HandleSigint | multirunner/runner.py:297-308 | the signal is counted, and from the second SIGINT on every tabled worker is killed |
| Runner.JobRunner.Gen | multirunner/runner.py:427-435 | every yielded line is counted and non-empty; completion means no worker is left; without an escaping exception no signal arrived and no worker was left outside the tables |
| Runner.JobRunner.GenNext | multirunner/runner.py:428-435 | one round of `gen` keeps what `Gen` states |
| Runner.JobRunner.Run | multirunner/runner.py:437-465 | however the run ends, both tables are empty and every started worker was killed or left running by a raised write; a completed run from a non-empty pool with replacement on and no SIGINT wrote every input item to a worker exactly once and in order |
| Runner.JobRunner.Begin | multirunner/runner.py:440-454 | replacement is switched on, the count reset and the workers seeded |
| Runner.JobRunner.Finish | multirunner/runner.py:456-458 | `terminate(soft=False, wait=True)` and empty tables leave no tabled worker unkilled |
| Runner.Yielded | multirunner/runner.py:353-357 | `loop` yields at most one line per handled worker, and never an empty one |
| Runner.YieldedNext | multirunner/runner.py:353-357 | one more handled worker adds its reply, unless the reply was dropped or empty |
| Runner.YieldedFrame | multirunner/runner.py:353-357 | workers outside the handled prefix do not change what it yields |
| Runner.RangeGrow | multirunner/runner.py:264-284 | one more accepted start extends the table order by the next worker number |
| Runner.IdsGrow | multirunner/runner.py:264-284 | one more start adds the next worker number to a set of workers |
| Runner.KilledGrow | multirunner/runner.py:286-288 | a rejected start kills the new worker and every tabled worker |
| Runner.Range | multirunner/runner.py:264 | the worker numbers started by the pool loop, in order |
| Runner.FirstFalse | multirunner/runner.py:264-279 | the first rejected start, every earlier one accepted |
| Runner.FirstFalseAt | multirunner/runner.py:264-279 | the pool loop's stop point is the first rejected start |
| Stats.Prepared | multirunner/runner.py:74-75 | a visited process gets a count and a sums table, and nothing else changes |
| Stats.StepConsistent | multirunner/runner.py:72-91 | visiting a process keeps the sums and counts equal to its samples so far |
| Stats.PreparedConsistent | multirunner/runner.py:74-75 | the `setdefault` calls keep the tables consistent with the samples |
| Stats.SampleConsistent | multirunner/runner.py:88-91 | adding one sample's readings and one to the count keeps the tables consistent |
| Stats.TotalIsSampleSum | multirunner/runner.py:88-90 | a running sum is the sum of that reading over the samples |
| Stats.UpdatedCount | multirunner/runner.py:72-91 | one `update` raises a process's count by the number of visits that took a sample, and caches a handle for the processes it inspected |
| Stats.FirstSighting | multirunner/runner.py:98-103 | the first visit of a process caches its handle and records no sample |
| Stats.ConsistentDivisible | multirunner/runner.py:115-117 | a process with readings has at least one sample, so `average_stats` never divides by zero |
| Stats.AverageIsMean | multirunner/runner.py:111-118 | a per-process average is the arithmetic mean of that reading over the process's samples |
| Stats.PoolCounts | multirunner/runner.py:123-130 | each pooled reading is counted at least once |
| Stats.PoolStep | multirunner/runner.py:125-130 | the pooled sum and count of a reading grow with one more process by that process's average |
| Stats.PoolSumBounds | multirunner/runner.py:123-130 | the pooled sum lies between its count times any lower and any upper bound of the averages |
| Stats.PoolMeanBetween | multirunner/runner.py:123-135 | a pool-wide average lies between any bounds of the per-process averages it pools |
| Stats.PoolMeansSingle | multirunner/runner.py:123-135 | with one process the pool-wide averages are its own |
| Stats.StatsCollector.constructor | multirunner/runner.py:67-70 | a collector starts with empty tables |
| Stats.StatsCollector.Reset | multirunner/runner.py:93-96 | `reset()` empties the tables |
| Stats.StatsCollector.Update | multirunner/runner.py:72-91 | `update(pids)` computes `Updated` and keeps the tables consistent with the recorded samples |
| Stats.StatsCollector.Observe | multirunner/runner.py:73-91 | one process visited by `update` computes `Step` |
| Stats.StatsCollector.AverageStats | multirunner/runner.py:111-135 | `average_stats` returns the per-process means, or for the pool each reading's mean over the processes that have it |
| Stats.StatsCollector.PerPidAverages | multirunner/runner.py:112-118 | the first loop of `average_stats` computes the per-process averages |
| Stats.PoolAverages | multirunner/runner.py:123-135 | the pooled part of `average_stats` computes the pool-wide means |
| Stats.Accumulate | multirunner/runner.py:88-90 | the inner loop of `update` adds one sample's readings into the sums |
| Stats.SummedStep | multirunner/runner.py:89-90 | one more reading is added |
| Stats.SummedDone | multirunner/runner.py:88-90 | once every reading was added the sums are the merged sums |
| Stats.TalliedStep | multirunner/runner.py:129-130 | one more reading name is counted |
| Stats.TalliedDone | multirunner/runner.py:126-130 | once every name was counted the counts are the tallied counts |
| Stats.Scale | multirunner/runner.py:116-117 | each reading of a process is divided by its sample count |
| Stats.AddAverages | multirunner/runner.py:126-130 | one process's averages are added to the pooled sums and counted |
| Stats.Divide | multirunner/runner.py:132-133 | each pooled sum is divided by its count |
| Worker.OutputCapture.constructor | multirunner/handlers/python.py:22-36 | the capture flags, the two buffers passed in for the `StringIO` objects and the streams in place at creation are recorded (the buffers are not required to be new or distinct) |
| Worker.OutputCapture.Enter | multirunner/handlers/python.py:38-42 | each flagged stream is swapped for its buffer and the others stay |
| Worker.OutputCapture.Exit | multirunner/handlers/python.py:44-46 | both streams are restored to those saved at creation, captured or not |
| Worker.Captured | multirunner/handlers/python.py:144-166 | inside the block the flagged streams write to the buffers; afterwards the streams are the ones in place before |
| Worker.DiagnosticRecord | multirunner/handlers/python.py:75-78 | the failure record has exactly `stack` and `when`, with the phase label in `when` |
| Worker.CodeSource | multirunner/handlers/python.py:82-86 | a code descriptor is found only when the specification is an object with `code` |
| Worker.PlaceCode | multirunner/handlers/python.py:88-97 | inline code goes to the temporary file, which is also the path loaded; a failure after creating it reports that file |
| Worker.LoadHandler | multirunner/handlers/python.py:111-137 | the late phases never report `loading spec` or `loading code` |
| Worker.ValidateSpec | multirunner/handlers/python.py:69-141 | a temporary file, if created, is the only file removed, and it is removed once |
| Worker.Phases | multirunner/handlers/python.py:69-137 | `loading spec` exactly when the line does not decode; `loading code` exactly when the code descriptor is unusable; later outcomes only with usable code |
| Worker.AcceptedHandler | multirunner/handlers/python.py:111-137 | an accepted specification yields the attribute named by `handler` (default `main`) of the module loaded under `mod_name` (default `run`), after a named setup hook returned |
| Worker.TempFileRemoved | multirunner/handlers/python.py:80-141 | a created temporary file is removed exactly once however validation ends; a `path` descriptor removes nothing |
| Worker.HookOnlyWhenNamed | multirunner/handlers/python.py:124-128 | the setup hook is called only when the specification names one |
| Worker.ItemRecord | multirunner/handlers/python.py:161-166 | the record has exactly `data`, `exit`, `stdout` and `stderr`, with the item unmodified in `data` |
| Worker.HandleItem | multirunner/handlers/python.py:143-166 | a record keeps the item as its `data` |
| Worker.ItemExit | multirunner/handlers/python.py:143-166 | no record exactly when the handler quits; exit 1 with the traceback appended when the item does not decode or the handler raises; otherwise the handler's integer, or 0 |
| Worker.AnswerItems | multirunner/handlers/python.py:187-191 | one sorted-key record line per item, in order, until a handler quits |
| Worker.Serve | multirunner/handlers/python.py:178-194 | no first line crashes; a rejected specification writes `ERROR` and its record; an accepted one writes `OK` and one record line per further line |
| LegacyWorker.ExecInfo | multirunner/python.py:67-76 | the job description is found exactly when the line decodes to an object with `exec_info` |
| LegacyWorker.ValidateSpecAsWritten | multirunner/python.py:66-123 | when validation returns, the temporary file, if created, is removed once |
| LegacyWorker.MissingCodeEscapes | multirunner/python.py:78-92 | a description without `code` crashes the worker as written, and is reported as `writing file` once corrected |
| LegacyWorker.ValidateSpec | multirunner/python.py:66-123 | the corrected validation removes a created file once, and agrees with the as-written one wherever that returns |
| LegacyWorker.Phases | multirunner/python.py:66-123 | `loading spec` exactly when there is no job description; `writing file` exactly when its code cannot be written; the temporary file is created exactly when the code is found, and removed once |
| LegacyWorker.Serve | multirunner/python.py:150-166 | with the correction of the second finding applied (`ValidateSpec`, so a missing `code` gives `ERROR`/`writing file` where the source crashes): like the newer worker, with the record keys in insertion order |
| Cli.SpecErrors | multirunner/__main__.py:94-98 | no message exactly when both `exec_type` and `exec_info` are present; each message exactly when its key is missing, one message per missing key, in that order |
| Cli.SetInfo | multirunner/__main__.py:135-136 | `setdefault` then a store: a `TypeError` exactly when `exec_info` is not an object; otherwise one member of `exec_info` is set |
| Cli.ApplyOverrides | multirunner/__main__.py:131-144 | the four `setdefault`-and-store steps compute `SpecAfter`, including its `TypeError` case |
| Cli.SpecAfterMembers | multirunner/__main__.py:131-144 | `--exec-type` replaces `exec_type`; each other override sets its member of `exec_info`, creating it when absent; the other members are kept; the result fails exactly when an override stores into an `exec_info` that is not an object |
| Cli.LoadSpec | multirunner/__main__.py:107-151 | a specification is returned exactly when `LoadsSpec` holds (the file is absent or an object, no override stores into a non-object `exec_info`, and both `exec_type` and `exec_info` are present after the overrides), and it is then the file's members after the overrides (`SpecAfter`), with no validation message; the `TypeError` crash happens exactly when `LoadCrashes` holds; every other input, an unreadable or non-object file among them, is a usage error |
| Cli.ParseInt | multirunner/__main__.py:75 | `int(s)` succeeds only on text that ends with a digit after stripping, and a negative result only after a leading minus sign; ParseDecimal, ParseUnsigned, ParseSigned and NonNumericFirst state what it reads |
| Cli.ResolveLogLevel | multirunner/__main__.py:73-80 | the level is the default when no argument is given, and otherwise the default, a level of the table, or the integer the argument denotes; NumericLevel, NamedLevel and UnknownLevel state which |
| Cli.Decimal | multirunner/__main__.py:75 | decimal digits only |
| Cli.DecimalValue | multirunner/__main__.py:75 | the digits of a number denote that number |
| Cli.ParseDecimal | multirunner/__main__.py:75 | `int` reads a number's decimal digits back as that number |
| Cli.ParseUnsigned | multirunner/__main__.py:75 | `int` reads a digit run as its value |
| Cli.ParseSigned | multirunner/__main__.py:75 | `int` reads a signed digit run as its value, negated after a minus sign |
| Cli.NonNumericFirst | multirunner/__main__.py:74-76 | text starting with a character that is neither whitespace, a sign nor a digit is not an integer |
| Cli.NumericLevel | multirunner/__main__.py:73-75 | a numeric `--loglevel` is that number |
| Cli.UpperLetter | multirunner/__main__.py:76-78 | a character whose upper case starts with a letter is neither whitespace, a sign nor a digit |
| Cli.NamedLevel | multirunner/__main__.py:76-78 | text whose upper case is a level name resolves to that level, whatever characters spell it |
| Cli.LowerExample | multirunner/__main__.py:73-80 | `warn` is level 30 |
| Cli.MixedExample | multirunner/__main__.py:73-80 | `Info` is level 20 |
| Cli.DotlessExample | multirunner/__main__.py:76-78 | a dotless `ı` upper-cases to `I`, so `ınfo` is level 20 |
| Cli.UnderscoreExample | multirunner/__main__.py:74-75 | `1_0` is level 10 |
| Cli.UnknownLevel | multirunner/__main__.py:73-80 | text that starts with a character other than whitespace, a sign or a digit and whose upper case names no level resolves to the default |
| Cli.UnknownExample | multirunner/__main__.py:79-80 | `trace` names no level and leaves the default |
| Cli.WriteResults | multirunner/__main__.py:177-180 | each item is written once, in order, with a terminator appended unless it already ends with one |
| Cli.ExecuteAsWritten | multirunner/__main__.py:153-187 | as written, no item is ever written, a job whose setup succeeds exits with status 1, a specification that does not load exits with 2, or 1 after the `TypeError` crash, and a failed setup exits with 2 when its record is reportable and 1 otherwise |
| Cli.Execute | multirunner/__main__.py:153-187 | with the correction of the third finding applied (`with runner.run() as items`): status 0 exactly when the specification loads, setup succeeds and the run raises nothing; 2 exactly for a usage error of `load_spec` or for a failed setup after a loaded specification whose record is an object with `when` and `stack` (any other decoded worker record makes `err['when']` raise, giving 1); every item is written with one terminator |

## Left out

- Processes, pipes, `select`, signals and clocks are oracle parameters. Kill signals are recorded in a ghost set; `wait` and reaping are not modelled.
- `json.loads`, `json.dumps` and `traceback.format_exc()` are oracles or uninterpreted values. The model does not render JSON text.
- Floating-point numbers are modelled as `real`. `round()` in `n_procs` is left to the caller: `NProcs` takes the two rounded budgets.
- The monitoring thread (`monitor`, `create_monitoring_thread`, `kill_monitoring_thread`), `update_stats` and the locked attributes are left out because they are concurrency. `psutil` is the `reading` oracle of `StatsCollector.Update`.
- `log_stats`, logging output and the log file handler are left out because they are output only.
- Reading the specification file (`yaml.load`/`json.load`) is an input: the file's content, or its failure to load.
- `runner.py` imports `ANALYTICS_ENABLED` and `__main__.py` imports `YAML_ENABLED` from `settings.py`, which defines neither name. As written, `import multirunner.runner` already fails, so `from .runner import JobRunner` in `__main__.py` fails before `YAML_ENABLED` is reached. The model assumes both names are defined and true.
- Stats: `StatsCollector` is defined and created only under `ANALYTICS_ENABLED`. The `Stats` module assumes it is true; with it false `runner.stats` is `None` and nothing is collected.
- Cli.LoadSpec: assumes `YAML_ENABLED` is true. With it false, `yaml` is never imported, so any failure to open or decode the file reaches the `except (yaml.reader.ReaderError, ...)` clause, which raises `UnboundLocalError` and exits with status 1 rather than the usage error modelled.
- Runner.JobRunner.Setup, Runner.JobRunner.StartPool, Runner.JobRunner.Respawn: a worker start that raises is not modelled. `create_process` runs outside any `try`, so a failing `Popen`, or a `BrokenPipeError` from writing the specification or reading the handshake line, escapes `setup` and `handle_broken_stream`. `setup` then leaves the workers already tabled unkilled, and a process that started but was never tabled keeps running. The model's `Attempt` always yields a handshake line and the remaining output.
- Utils.Wait: a pass may report no readable stream even without a timeout. The real `select` without a timeout blocks until a stream is readable, and with an empty stream list and no timeout it blocks forever. For those inputs the model returns a result the program never reaches.
- Cli.ResolveLogLevel: only names of logging levels are modelled. `getattr(logging, name)` also finds other attributes of the module, such as `BASIC_FORMAT` (a string), which the model maps to the default.
- Cli.ParseInt: accepts only ASCII digits. Python's `int` also accepts other Unicode decimal digits.
- Common.UpperChar: only the characters whose upper case holds an ASCII letter are mapped. Every other character's upper case is kept as it is, which no comparison here can tell apart.
- `assert os.path.isfile(code)` in the worker is modelled as active. Under `python -O` it is skipped.
- The random failure injection of the older worker's `main` (`random.random() > .9`) is left out because it is randomness.
- The `val is None` check in both `main` loops is left out because `handle_item` never returns `None`. A quitting handler is modelled as the exception it is.
- The older worker's `OutputCapture` and `handle_item` are the same code as the newer worker's and are modelled once, in `Worker`.
- Failures of the file system when removing a temporary file are not modelled. `FileNotFoundError` is swallowed in the source.
- Worker.Serve: `lines` is a finite sequence, as `fileinput.input()` gives under Python 3. Under Python 2 the worker reads with `iterate_stdin`, which yields `''` for ever after end of input, so an accepted worker writes exit-1 records without end; that case is not modelled.
- `command_exists` is the `commandExists` oracle of the interpreter choice.
- `locked_attr_funcs` is left out because it is locking only.

## Findings

| source | as written | input that shows it | evidently intended | confidence | as-written member | corrected member |
|---|---|---|---|---|---|---|
| multirunner/runner.py:272-279 | when a rejected worker's remaining output decodes as JSON, `err` stays `None` and `setup` returns `(False, None)`; `main` then fails on `err['when']` | a worker that answers `ERROR` followed by its `{"stack": ..., "when": "loading code"}` line | return the decoded worker record as the failure record | not executed | Runner.WorkerDiagnosticAsWritten, Runner.WorkerRecordLost | Runner.WorkerDiagnostic |
| multirunner/python.py:78-92 | when `execution_info['code']` raises, or the temporary file cannot be created, the `except` clause calls `os.remove(path)` before `path` is assigned; the `UnboundLocalError` escapes and the worker crashes without a diagnostic | the specification line `{"exec_info": {}}` | report `writing file` and remove only a file that was created | not executed | LegacyWorker.ValidateSpecAsWritten, LegacyWorker.MissingCodeEscapes | LegacyWorker.ValidateSpec |
| multirunner/__main__.py:176-180 | `runner.run()` is a `@contextmanager`, so the `for` loop iterates a context manager object; the `TypeError` escapes, nothing is written, and the status is 1 | any specification whose setup succeeds | `with runner.run() as items: for item in items: ...` | not executed | Cli.ExecuteAsWritten | Cli.Execute |
