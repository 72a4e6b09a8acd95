# m_logger — a verified model of the log aggregation core

`m_logger` gives worker processes a way to send their log records to one listener thread in
the parent process. The listener drains the shared queue in order. It hands every record to a
target logger. It stops when it sees the kill sentinel, which is an INFO record whose text is
`$____KILL_SERVER____$`. `initLogger` configures a named logger: a console handler, an
optional queue handler and an optional message prefix. It also rebinds the module's current
logger `_logger` and the `debug` … `critical` names. `killListener` emits the sentinel
through a logger configured for the queue.

The model is organised as follows:

- `Records` — levels, the `Record` value (level number and message) and the sentinel predicate.
- `Queues` — the multiprocessing queue, as a class holding a FIFO `seq<Record>` with `put`, `empty` and `get`.
- `Adapter` — what `initLogger` returns: a plain logger, or the prefixing `LoggerAdapter`, whose `process` is modelled with its inverse.
- `Registry` — the process-wide logger state. It is a class holding each name's handler list and level, `_logger`, the binding of `debug` … `critical`, and the console output as a record trace. Its methods are `initLogger`, emission through a logger object, `initLogListener` and `killListener`.
- `Listener` — `listen`. `Drain` is a specification function over the whole record stream. `DrainAvailable` is the inner `while not mpQueue.empty()` loop. `Listen` is the outer `while not stop` loop. The lemmas say what `Drain` does.
- `Pipeline` — worker processes logging concurrently through queue-configured loggers, then shutdown. The order in which the workers' calls reach the queue is a schedule parameter. For every complete schedule it shows that the listener hands its target exactly what arrived, in arrival order, with each worker's five records in that worker's call order, and then stops.

Failures of `logger.handle` are an oracle, `raises: seq<bool>`, indexed by the position the
record was popped at. The standard `logging.LoggerAdapter` has no `handle` method, so when
the listener's target is a prefixing adapter, every dispatch raises `AttributeError`. The
`except` swallows that error. The model's `Fails` therefore holds for every record sent to an
adapter, and `AdapterTargetDeliversNothing` states the consequence. That case arises when
`initLogListener()` is called after `initLogger(prepend=...)`.

Two behaviours of the code are modelled as written, although they differ from what the docstring and the arguments suggest:

- A file handler is built when `logFile` is given, but it is never registered. No log file ever receives records.
- The listener hands records to the target's `handle`. That call does not re-check the target logger's own level.

## Model

| member | source | states |
|---|---|---|
| `Records.IsSentinel` | m_logger/__init__.py:124-125 | a record is the stop signal exactly when it is the INFO record whose text is the kill text |
| `Records.KillRecord` | m_logger/__init__.py:164 | the record `killListener` emits (INFO, kill text) satisfies the listener's sentinel test |
| `Records.SentinelNeedsBoth` | m_logger/__init__.py:124-125 | a record is the sentinel iff both its level is INFO and its text is the kill text; either difference makes it data |
| `Queues.RecordQueue.constructor` | m_logger/__init__.py:150 | a new queue is empty |
| `Queues.RecordQueue.Put` | m_logger/__init__.py:85 | a put appends the record at the back |
| `Queues.RecordQueue.Empty` | m_logger/__init__.py:120 | `empty()` is true exactly when no record is waiting |
| `Queues.RecordQueue.Get` | m_logger/__init__.py:123 | `get()` removes and returns the oldest record |
| `Adapter.Process` | m_logger/__init__.py:24-25 | the processed message is the prefix, one space, then the original message; kwargs are returned unchanged |
| `Adapter.UnprefixProcess` | m_logger/__init__.py:24-25 | the original message can always be recovered from a processed one |
| `Adapter.ProcessUnprefix` | m_logger/__init__.py:24-25 | any text carrying the prefix and a space is the processing of what follows it |
| `Adapter.Truthy` | m_logger/__init__.py:91 | `if prepend:` is false for `None` and for the empty string, and true for every non-empty string |
| `Adapter.Wrap` | m_logger/__init__.py:91-95 | an adapter is returned iff `prepend` is truthy; `None` or `""` gives the bare logger of that name |
| `Adapter.MessageVia` | m_logger/__init__.py:91-95 | a message logged through an adapter reaches the logger prefixed, one logged through the bare logger unchanged |
| `Registry.HandlerLevel` | m_logger/__init__.py:77-86 | a console or file handler's threshold is the level set on it; a queue handler gets no level, so its threshold is NOTSET |
| `Registry.Accepts` | m_logger/__init__.py:77-86 | a queue handler lets through every record at NOTSET or above; any other handler lets a record through exactly when its level reaches the level set on that handler |
| `Registry.NewHandlers` | m_logger/__init__.py:71-86 | one configuration registers a console handler at `level`, and a queue handler iff a queue is given; never a file handler |
| `Registry.ToConsoleAppend` | m_logger/__init__.py:81 | console output of a grown handler list is the old output followed by that of the added handlers |
| `Registry.ToQueueAppend` | m_logger/__init__.py:86 | queue output of a grown handler list is the old output followed by that of the added handlers |
| `Registry.ReconfigureConsole` | m_logger/__init__.py:62-81 | re-running `initLogger` on a name adds one more console copy of each record reaching `level` and replaces nothing |
| `Registry.ReconfigureQueue` | m_logger/__init__.py:84-86 | re-running `initLogger` with a queue adds one more copy on that queue only |
| `Registry.ConfigureTwiceDuplicates` | m_logger/__init__.py:62-81 | configuring one name twice at one level writes each accepted record twice |
| `Registry.KillAddsOneSentinel` | m_logger/__init__.py:163-164 | the sentinel reaches `q` through the killer's earlier handlers, then exactly once through the queue handler `killListener(q)` adds, then through the root's handlers; when no earlier handler forwards to `q` it reaches `q` exactly once |
| `Registry.LastResort` | m_logger/__init__.py:164 | the backend's last-resort handler writes the record iff no handler was found on the route and the record is at WARNING or above |
| `Registry.LoggerRegistry.constructor` | m_logger/__init__.py:9-17 | at import `_logger` is the root logger at WARNING and the level names are the backend's module functions |
| `Registry.LoggerRegistry.EffectiveLevel` | m_logger/__init__.py:89 | a logger's effective level is its own level when one was set (not NOTSET), otherwise the root's |
| `Registry.LoggerRegistry.Enabled` | m_logger/__init__.py:164 | a call is enabled only above the disable threshold and at or above the logger's effective level |
| `Registry.LoggerRegistry.Route` | m_logger/__init__.py:81-86 | the handlers a record visits are the logger's own, in registration order, then (by propagation) the root's |
| `Registry.LoggerRegistry.InitLogger` | m_logger/__init__.py:28-105 | appends the new handlers to that name's list and to no other, sets its level, returns the (possibly wrapped) logger and makes it `_logger` and the target of `debug` … `critical`; a failed log file open raises and changes nothing |
| `Registry.LoggerRegistry.CallHandler` | m_logger/__init__.py:81-86 | one handler on the route: a console handler accepting the record writes it to the console, a queue handler accepting it puts it on its own queue, and nothing else changes |
| `Registry.LoggerRegistry.CallHandlers` | m_logger/__init__.py:81-86 | each handler on the route whose threshold the record reaches writes it once, in route order, to the console or its queue; with no handler at all the last-resort handler may write it |
| `Registry.LoggerRegistry.Emit` | m_logger/__init__.py:164 | a call that is not enabled writes nothing anywhere; an enabled one writes exactly what `CallHandlers` writes over the logger's route, the message prefixed when sent through an adapter |
| `Registry.LoggerRegistry.InitLogListener` | m_logger/__init__.py:136-152 | returns a fresh empty queue and a target that defaults to the current `_logger` |
| `Registry.LoggerRegistry.KillListener` | m_logger/__init__.py:154-164 | configures the killer logger at DEBUG with a queue handler on the queue and makes it `_logger`; its route becomes its earlier handlers, the two new ones and the root's; the sentinel is written to the console and to every queue on that route, as the handlers there dictate |
| `Registry.LoggerRegistry.EmitKill` | m_logger/__init__.py:164 | `info(LISTENER_KILL_MSG)` on the freshly configured killer logger passes the level gate, reaches nothing through the last-resort handler and writes the unprefixed sentinel through each handler on its route |
| `Listener.Fails` | m_logger/__init__.py:130-134 | dispatching to a prefixing adapter always raises, since it has no `handle`; dispatching to a plain logger raises only where the failure oracle says so, never past its end |
| `Listener.StepAccounts` | m_logger/__init__.py:122-134 | one popped record stops the listener iff it is the sentinel (or it had stopped); before the stop a data record is handled once and delivered iff its dispatch does not raise, a failure being counted instead; after the stop it stays behind |
| `Listener.Drain` | m_logger/__init__.py:117-134 | the handled records number the delivered ones plus the failures; the numbers of handled records, of the stopping sentinel (one if stopped) and of records left behind add up to the stream's length; nothing is left while not stopped |
| `Listener.FirstSentinel` | m_logger/__init__.py:120-129 | the position of the first sentinel in the stream, or its length when there is none |
| `Listener.DrainCharacterised` | m_logger/__init__.py:117-134 | the records before the first sentinel are handed to `handle` exactly once, in queue order; it stops iff a sentinel exists, leaving everything behind it; the delivered records are exactly those whose dispatch does not raise |
| `Listener.SentinelNeverForwarded` | m_logger/__init__.py:124-130 | the sentinel is never handed to `handle` nor delivered |
| `Listener.StopsIffSentinel` | m_logger/__init__.py:124-128 | the listener stops iff some record has both level INFO and the kill text |
| `Listener.FailuresDoNotStop` | m_logger/__init__.py:131-134 | failing dispatches change neither which records are handled nor when it stops nor what is left |
| `Listener.NoFailureDeliversAll` | m_logger/__init__.py:130 | when `handle` never raises the target receives every handled record and nothing is counted as failed |
| `Listener.AdapterTargetDeliversNothing` | m_logger/__init__.py:130-134 | a listener targeting a prefixing adapter delivers nothing and counts one failure per record before the sentinel |
| `Listener.ShutdownAfterProducers` | m_logger/__init__.py:118-129 | with the producers' records, then the sentinel, then anything, the listener handles exactly the producers' records, stops, and leaves the rest |
| `Listener.DrainAfterStop` | m_logger/__init__.py:127-129 | once stopped, later records only pile up behind the sentinel |
| `Listener.Produce` | m_logger/__init__.py:85 | producers putting a batch leave the queue as it was followed by the batch, in order |
| `Listener.DrainAvailable` | m_logger/__init__.py:120-134 | the inner loop pops until the queue is empty or the sentinel was popped; its state is `Drain` of everything popped so far, and an unstopped drain leaves the queue empty |
| `Listener.Dispatch` | m_logger/__init__.py:122-134 | one pass of the inner loop pops exactly one record, and the state after it is `Drain` of everything popped so far, the stop flag included |
| `Listener.Wake` | m_logger/__init__.py:119-134 | one wake after producers put a batch: the state and the queue left behind are `Drain` of the stream so far with the batch appended, and an unstopped wake leaves the queue empty |
| `Listener.DrainWhole` | m_logger/__init__.py:117-134 | what was popped, followed by what is left on the queue, drains as a whole: a stop leaves the rest behind, and no stop means nothing was left |
| `Listener.Listen` | m_logger/__init__.py:107-134 | over any split of the arriving records into wakes, the result and the queue left behind are `Drain` of the whole stream; it returns unstopped only after the last wake |
| `Pipeline.ProducerRecord` | test/test_m_logger.py:61-65 | the record of a producer's `k`-th call is at the `k`-th level, `debug` to `critical`, and is never the sentinel |
| `Pipeline.ProducerRecords` | test/test_m_logger.py:61-65 | a producer's five records, one per call, in call order |
| `Pipeline.ProducerRecordsCarryPrefix` | test/test_m_logger.py:56-65 | each message is the call's text behind the worker's prefix and one space, or the bare text when the prefix is empty |
| `Pipeline.LogOne` | m_logger/__init__.py:84-101 | a call through a logger at DEBUG routed to a console handler and a queue handler on `q` puts exactly its (prefixed) record on `q` |
| `Pipeline.LogCall` | test/test_m_logger.py:61-65 | the producer's `k`-th call puts exactly the `k`-th producer record on the queue |
| `Pipeline.ConfigureProducer` | test/test_m_logger.py:56-59 | a worker's `initLogger(mpQueue=q, prepend=prefix)` leaves the default logger at DEBUG routed to a console handler and a queue handler on `q`, wrapped with the prefix, and `q` untouched |
| `Pipeline.Producer` | test/test_m_logger.py:55-65 | a producer appends exactly its five prefixed records to the queue, in call order, and nothing else |
| `Pipeline.Schedules` | test/test_m_logger.py:39-45 | a possible arrival order of the started workers' calls names only those workers, none more than five times, so it holds at most 5 × N calls |
| `Pipeline.Complete` | test/test_m_logger.py:47-49 | once every worker has been joined, each has made all five calls, so the order is a schedule of exactly 5 × N calls |
| `Pipeline.Calls` | test/test_m_logger.py:39-49 | the number of calls a worker has made is at most the number of calls taken so far |
| `Pipeline.Interleave` | test/test_m_logger.py:39-49 | what concurrent workers put on the queue under a schedule: one record per scheduled call, each worker's next record at its turn |
| `Pipeline.Of` | test/test_m_logger.py:39-49 | the records at one worker's positions of the schedule number that worker's calls |
| `Pipeline.InterleaveKeepsOrder` | test/test_m_logger.py:39-65 | at the positions of worker `w`'s calls the queue holds the first records of `w`, in `w`'s call order, one per call made |
| `Pipeline.InterleaveHasNoSentinel` | test/test_m_logger.py:55-65 | no worker ever puts the sentinel on the queue, whatever the schedule |
| `Pipeline.CallsBelowAll` | test/test_m_logger.py:39-45 | every call is one of a worker's, so the workers' calls add up to the number of calls |
| `Pipeline.CompleteRun` | test/test_m_logger.py:39-49 | when every worker was joined after its five calls, the queue got exactly `5 * N` records, and each worker's positions hold all five of its records in call order |
| `Pipeline.ConfigureWorkers` | test/test_m_logger.py:39-45 | each started worker configures its own fresh registry with the queue and its prefix, and the queue is untouched |
| `Pipeline.WorkerCall` | test/test_m_logger.py:61-65 | worker `w`'s `k`-th call puts exactly its `k`-th record on the queue and leaves every worker's configuration as it was |
| `Pipeline.Turn` | test/test_m_logger.py:39-49 | one step of a schedule: the queue grows from `Interleave` of the first `i` calls to `Interleave` of the first `i + 1`, and every worker stays configured |
| `Pipeline.RunSchedule` | test/test_m_logger.py:39-49 | configured workers making their calls in the order of any schedule append exactly `Interleave` of it to the queue |
| `Pipeline.RunWorkers` | test/test_m_logger.py:39-49 | concurrent workers whose calls are taken in the order of any schedule append exactly `Interleave` of that schedule to the queue |
| `Pipeline.KillAndDrain` | m_logger/__init__.py:154-164 | `killListener(q)` after the workers, when neither the killer logger nor the root already holds a queue handler on `q`, then the listener draining the queue: it hands over exactly what the workers put there, in order, and stops |
| `Pipeline.ProducersThenShutdown` | test/test_m_logger.py:31-52 | for any complete schedule of N concurrent workers, after the joins and `killListener` the listener stops having handled exactly the interleaved stream in arrival order: 5 × N records, never the sentinel, each worker's five at its positions in its own call order |

## Left out

- `time.sleep` and the `empty()` polling are not modelled as timing. Each wake of the outer loop is one batch of an arrival schedule. The model runs to the end of that schedule, whereas the real thread keeps polling.
- The listener thread (`threading.Thread`) and the inter-process transport of `multiprocessing.Queue` are not modelled. The queue is one sequence that producers and the listener take turns on.
- `Queues.RecordQueue.Get` requires a non-empty queue. The real `get()` blocks on an empty queue, and `listen` calls it only after `empty()` returned false.
- The `Formatter` line rendering, and the I/O of `StreamHandler` and `FileHandler`, are not modelled. The console is a trace of the records written. Opening the log file is an oracle that may fail.
- `QueueHandler.prepare` serialisation is not modelled. With no formatter it leaves the message text as it is.
- `Logger.handle` on the listener's target is an opaque sink that may raise. The real call goes on to the target's own handlers. Those handlers are not modelled.
- Propagation is modelled from a logger straight to the root. Intermediate ancestors of dotted names, filters, the `disabled` flag and `propagate = False` are not modelled. No name used here is dotted.
- The name `"root"` is both the model's key for the root logger and the name the backend maps to it, so these agree. The empty name `""` also denotes the root in the backend; the model treats it as an ordinary name.
- `logging.disable` is never called by the package, so the disable threshold is the constant NOTSET (`Registry.MANAGER_DISABLE`).
- `Registry.LastResort` writes to the console trace, which stands for the standard error stream of the last-resort handler as well as that of console handlers. The behaviour when `logging.lastResort` has been set to `None` (a one-time "No handlers could be found" message) is not modelled.
- Calling `debug` … `critical` while they are still the backend's module functions is not modelled. That path goes through the root logger and does implicit `basicConfig`. The model records what the names are bound to. Emission is modelled on logger objects.
- The `print` and `traceback.format_exc()` diagnostics are modelled only as a count of swallowed failures.
- Only `handle` can raise in the model. Exceptions from `get()` or `getMessage()` are not modelled.
- Each producer process gets a fresh registry. This matches the spawn start method. A forked child's copy of the parent's loggers is not modelled.
- The worker's `time.sleep(3)` and `os.getpid()` are not modelled. The prefix is a parameter.
- Pipeline.RunWorkers: the concurrency of the workers is modelled as an interleaving of whole `put` calls, chosen by the schedule parameter. A put is atomic, so this covers every order in which records can arrive. Each worker's `initLogger` touches only its own process's registry, so it is taken before any worker logs. Scheduling, start-up and joining are not modelled as time. In `Pipeline.ProducersThenShutdown` the listener drains only after the kill, in a single wake; its wakes while the workers are still running are not modelled there. `Listener.Listen` shows that the result does not depend on how the stream is split into wakes.
