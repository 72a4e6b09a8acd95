/** The process-wide logger registry that `initLogger` configures: each logger name's handler
    list and level, the module's current logger `_logger` and what `debug` … `critical` are bound to. */
module Registry {
  import opened Records
  import opened Wrappers
  import opened Queues
  import opened Adapter

  /** Name of the root logger, which is what `_logger` starts as. */
  const ROOT: string := "root"

  /** The backend's `manager.disable` threshold; `logging.disable` is never called, so it stays
      at its initial NOTSET. */
  const MANAGER_DISABLE: int := NOTSET

  /** The logger `killListener` configures. */
  const KILLER: string := "__listener_killer__"

  /** The name `initLogger` uses when none is given: the package's `__name__`. */
  const DEFAULT_NAME: string := "m_logger"

  /** The default open mode of the log file. */
  const DEFAULT_FILE_MODE: string := "a+"

  /** A handler attached to a logger. A QueueHandler keeps the backend's NOTSET level. */
  datatype Handler =
    | ConsoleHandler(level: int)
    | FileHandler(path: string, mode: string, level: int)
    | QueueHandler(queue: RecordQueue)

  /** What the module-level names `debug`, `info`, `warning`, `error`, `critical` are bound to:
      the backend's module functions at import time, later the methods of one logger object.
      The five names are always rebound together. */
  datatype Binding = ModuleFunctions | MethodsOf(obj: LoggerObj)

  /** Raised by `initLogger` when the log file cannot be opened. */
  datatype ConfigError = FileOpenError(path: string)

  /** A handler's threshold: the level it was configured with, or NOTSET for a queue
      handler, which is created without one. */
  function HandlerLevel(h: Handler): (level: int)
    ensures h.QueueHandler? ==> level == NOTSET
    ensures !h.QueueHandler? ==> level == h.level
  {
    match h
    case ConsoleHandler(l) => l
    case FileHandler(_, _, l) => l
    case QueueHandler(_) => NOTSET
  }

  /** A handler lets a record through when the record's level reaches its own threshold. */
  predicate Accepts(h: Handler, r: Record)
    ensures h.QueueHandler? && r.levelno >= NOTSET ==> Accepts(h, r)
    ensures !h.QueueHandler? ==> (Accepts(h, r) <==> r.levelno >= h.level)
  {
    r.levelno >= HandlerLevel(h)
  }

  predicate NoFileHandler(hs: seq<Handler>)
  {
    forall i | 0 <= i < |hs| :: !hs[i].FileHandler?
  }

  /** The handlers one `initLogger` call registers: a console handler at `level`, then a queue
      handler when a queue is given. The file handler it builds is not among them. */
  function NewHandlers(level: int, mpQueue: RecordQueue?): (hs: seq<Handler>)
    ensures |hs| >= 1 && hs[0] == ConsoleHandler(level)
    ensures NoFileHandler(hs)
    ensures |hs| == if mpQueue != null then 2 else 1
    ensures mpQueue != null ==> hs[1] == QueueHandler(mpQueue)
  {
    if mpQueue != null then [ConsoleHandler(level), QueueHandler(mpQueue)]
    else [ConsoleHandler(level)]
  }

  /** The copies of `r` written to the console by the handlers `hs`, in handler order. */
  function ToConsole(hs: seq<Handler>, r: Record): (written: seq<Record>)
  {
    if hs == [] then []
    else
      var h := hs[|hs| - 1];
      ToConsole(hs[..|hs| - 1], r) + (if h.ConsoleHandler? && Accepts(h, r) then [r] else [])
  }

  /** The copies of `r` put on queue `q` by the handlers `hs`, in handler order. */
  function ToQueue(hs: seq<Handler>, r: Record, q: RecordQueue): (put: seq<Record>)
  {
    if hs == [] then []
    else
      var h := hs[|hs| - 1];
      ToQueue(hs[..|hs| - 1], r, q) + (if h.QueueHandler? && h.queue == q && Accepts(h, r) then [r] else [])
  }

  /** The queues the handlers `hs` forward to. */
  function QueuesIn(hs: seq<Handler>): (queues: set<RecordQueue>)
  {
    set i | 0 <= i < |hs| && hs[i].QueueHandler? :: hs[i].queue
  }

  /** One more handler adds at most one console copy. */
  lemma ToConsoleSnoc(hs: seq<Handler>, h: Handler, r: Record)
    ensures ToConsole(hs + [h], r) == ToConsole(hs, r) + (if h.ConsoleHandler? && Accepts(h, r) then [r] else [])
  {
    assert (hs + [h])[..|hs|] == hs;
  }

  /** One more handler adds at most one copy, and only on its own queue. */
  lemma ToQueueSnoc(hs: seq<Handler>, h: Handler, r: Record)
    ensures forall q :: ToQueue(hs + [h], r, q)
                        == ToQueue(hs, r, q) + (if h.QueueHandler? && h.queue == q && Accepts(h, r) then [r] else [])
  {
    assert (hs + [h])[..|hs|] == hs;
  }

  /** Console output distributes over a handler list that grew by appending. */
  lemma {:induction false} ToConsoleAppend(a: seq<Handler>, b: seq<Handler>, r: Record)
    ensures ToConsole(a + b, r) == ToConsole(a, r) + ToConsole(b, r)
    decreases |b|
  {
    if b != [] {
      var b' := b[..|b| - 1];
      assert (a + b)[..|a + b| - 1] == a + b';
      ToConsoleAppend(a, b', r);
    } else {
      assert a + b == a;
    }
  }

  /** Queue output distributes over a handler list that grew by appending. */
  lemma {:induction false} ToQueueAppend(a: seq<Handler>, b: seq<Handler>, r: Record, q: RecordQueue)
    ensures ToQueue(a + b, r, q) == ToQueue(a, r, q) + ToQueue(b, r, q)
    decreases |b|
  {
    if b != [] {
      var b' := b[..|b| - 1];
      assert (a + b)[..|a + b| - 1] == a + b';
      ToQueueAppend(a, b', r, q);
    } else {
      assert a + b == a;
    }
  }

  /** A queue that no handler names receives nothing. */
  lemma {:induction false} ToQueueOthers(hs: seq<Handler>, r: Record, q: RecordQueue)
    requires q !in QueuesIn(hs)
    ensures ToQueue(hs, r, q) == []
    decreases |hs|
  {
    if hs != [] {
      var hs' := hs[..|hs| - 1];
      assert QueuesIn(hs') <= QueuesIn(hs) by {
        forall x | x in QueuesIn(hs') ensures x in QueuesIn(hs) {
          var i :| 0 <= i < |hs'| && hs'[i].QueueHandler? && hs'[i].queue == x;
          assert hs[i] == hs'[i];
        }
      }
      ToQueueOthers(hs', r, q);
      assert hs[|hs| - 1].QueueHandler? ==> hs[|hs| - 1].queue in QueuesIn(hs);
    }
  }

  lemma QueuesInAppend(a: seq<Handler>, b: seq<Handler>)
    ensures QueuesIn(a + b) == QueuesIn(a) + QueuesIn(b)
  {
    forall x | x in QueuesIn(a) ensures x in QueuesIn(a + b) {
      var i :| 0 <= i < |a| && a[i].QueueHandler? && a[i].queue == x;
      assert (a + b)[i] == a[i];
    }
    forall x | x in QueuesIn(a + b) ensures x in QueuesIn(a) + QueuesIn(b) {
      var i :| 0 <= i < |a + b| && (a + b)[i].QueueHandler? && (a + b)[i].queue == x;
      if i >= |a| { assert b[i - |a|] == (a + b)[i]; }
    }
    forall x | x in QueuesIn(b) ensures x in QueuesIn(a + b) {
      var i :| 0 <= i < |b| && b[i].QueueHandler? && b[i].queue == x;
      assert (a + b)[|a| + i] == b[i];
    }
  }

  /** The queues the killer logger forwards to after `killListener`: its earlier ones, the
      root's, and the queue just given. */
  lemma KillerQueues(before: seq<Handler>, mpQueue: RecordQueue?, rootHs: seq<Handler>)
    ensures QueuesIn(before + NewHandlers(DEBUG, mpQueue) + rootHs)
         == QueuesIn(before + rootHs) + (if mpQueue != null then {mpQueue} else {})
    ensures before + NewHandlers(DEBUG, mpQueue) + rootHs != []
  {
    QueuesInAppend(before, NewHandlers(DEBUG, mpQueue));
    QueuesInAppend(before + NewHandlers(DEBUG, mpQueue), rootHs);
    QueuesInAppend(before, rootHs);
    if mpQueue != null {
      assert NewHandlers(DEBUG, mpQueue)[1].queue == mpQueue;
      assert QueuesIn(NewHandlers(DEBUG, mpQueue)) == {mpQueue};
    } else {
      assert QueuesIn(NewHandlers(DEBUG, mpQueue)) == {};
    }
  }

  /** Reconfiguring a logger adds one more console copy of every record that reaches `level`
      to whatever the earlier configurations already write; nothing is replaced. */
  lemma ReconfigureConsole(prior: seq<Handler>, level: int, mpQueue: RecordQueue?, r: Record)
    ensures ToConsole(prior + NewHandlers(level, mpQueue), r)
         == ToConsole(prior, r) + (if r.levelno >= level then [r] else [])
  {
    var added := NewHandlers(level, mpQueue);
    ToConsoleAppend(prior, added, r);
    assert [ConsoleHandler(level)][..0] == [];
    assert ToConsole([ConsoleHandler(level)], r) == if r.levelno >= level then [r] else [];
    if mpQueue != null {
      assert added[..1] == [ConsoleHandler(level)];
      assert ToConsole(added, r) == ToConsole([ConsoleHandler(level)], r);
    }
  }

  /** Reconfiguring a logger with a queue adds one more copy of every record on that queue,
      and changes nothing for any other queue. */
  lemma ReconfigureQueue(prior: seq<Handler>, level: int, mpQueue: RecordQueue?, r: Record, q: RecordQueue)
    ensures ToQueue(prior + NewHandlers(level, mpQueue), r, q)
         == ToQueue(prior, r, q) + (if mpQueue == q && r.levelno >= NOTSET then [r] else [])
  {
    var added := NewHandlers(level, mpQueue);
    ToQueueAppend(prior, added, r, q);
    assert [ConsoleHandler(level)][..0] == [];
    assert ToQueue([ConsoleHandler(level)], r, q) == [];
    if mpQueue != null {
      assert added[..1] == [ConsoleHandler(level)];
      assert ToQueue(added, r, q) == if mpQueue == q && r.levelno >= NOTSET then [r] else [];
    }
  }

  /** Configuring the same name twice at the same level writes every accepted record twice. */
  lemma ConfigureTwiceDuplicates(level: int, r: Record)
    requires r.levelno >= level
    ensures ToConsole(NewHandlers(level, null) + NewHandlers(level, null), r) == [r, r]
  {
    ReconfigureConsole(NewHandlers(level, null), level, null, r);
    ReconfigureConsole([], level, null, r);
    assert [] + NewHandlers(level, null) == NewHandlers(level, null);
  }

  /** Each `killListener(q)` puts exactly one more sentinel on `q` than the killer logger's
      earlier handlers (`prior`) and the root's handlers (`rootHs`) already do: exactly one on
      the first call, and a growing number on repeated calls. */
  lemma KillAddsOneSentinel(prior: seq<Handler>, rootHs: seq<Handler>, q: RecordQueue)
    ensures ToQueue(prior + NewHandlers(DEBUG, q) + rootHs, KillRecord(), q)
         == ToQueue(prior, KillRecord(), q) + [KillRecord()] + ToQueue(rootHs, KillRecord(), q)
    ensures q !in QueuesIn(prior) && q !in QueuesIn(rootHs) ==>
              ToQueue(prior + NewHandlers(DEBUG, q) + rootHs, KillRecord(), q) == [KillRecord()]
    ensures IsSentinel(KillRecord())
  {
    ToQueueAppend(prior + NewHandlers(DEBUG, q), rootHs, KillRecord(), q);
    ReconfigureQueue(prior, DEBUG, q, KillRecord(), q);
    if q !in QueuesIn(prior) && q !in QueuesIn(rootHs) {
      ToQueueOthers(prior, KillRecord(), q);
      ToQueueOthers(rootHs, KillRecord(), q);
    }
  }

  /** The backend's `lastResort` handler: when no handler at all was found for a record, one at
      WARNING or above is still written to the console. */
  function LastResort(hs: seq<Handler>, r: Record): (out: seq<Record>)
    ensures out == [] || out == [r]
    ensures out == [r] <==> (hs == [] && r.levelno >= WARNING)
  {
    if hs == [] && r.levelno >= WARNING then [r] else []
  }

  class LoggerRegistry {
    /** `logging.getLogger(name)` always returns the same object: its handler list lives here. */
    var handlers: map<string, seq<Handler>>
    /** Levels set with `setLevel`; a logger never set has NOTSET and defers to the root. */
    var levels: map<string, int>
    /** The module global `_logger`. */
    var current: LoggerObj
    /** The module globals `debug` … `critical`. */
    var bound: Binding
    /** Records written by console handlers, in order (rendering is not modelled). */
    var console: seq<Record>

    ghost predicate Valid()
      reads this`levels, this`handlers, this`bound, this`current
    {
      && ROOT in levels
      && (forall n | n in handlers :: NoFileHandler(handlers[n]))
      && (bound == MethodsOf(current) || (bound == ModuleFunctions && current == Plain(ROOT)))
    }

    /** The state at import: `_logger` is the root logger (level WARNING), the five names are
        the backend's module functions. */
    constructor ()
      ensures Valid()
      ensures handlers == map[] && levels == map[ROOT := WARNING]
      ensures current == Plain(ROOT) && bound == ModuleFunctions && console == []
    {
      handlers := map[];
      levels := map[ROOT := WARNING];
      current := Plain(ROOT);
      bound := ModuleFunctions;
      console := [];
    }

    function HandlersOf(name: string): (hs: seq<Handler>)
      reads this`handlers
    {
      if name in handlers then handlers[name] else []
    }

    /** The backend's `getEffectiveLevel`: the logger's own level, or the root's when it is NOTSET. */
    function EffectiveLevel(name: string): (l: int)
      reads this`levels
      requires ROOT in levels
      ensures name != ROOT && name in levels && levels[name] != NOTSET ==> l == levels[name]
      ensures l == levels[ROOT] || (name in levels && l == levels[name] && l != NOTSET)
    {
      if name != ROOT && name in levels && levels[name] != NOTSET then levels[name] else levels[ROOT]
    }

    /** The backend's `isEnabledFor`: nothing at or below the `disable` threshold, otherwise
        everything reaching the effective level. */
    predicate Enabled(name: string, level: int)
      reads this`levels
      requires ROOT in levels
      ensures Enabled(name, level) ==> level > NOTSET && level >= EffectiveLevel(name)
    {
      level > MANAGER_DISABLE && level >= EffectiveLevel(name)
    }

    /** The handlers `callHandlers` visits for a record of logger `name`: its own, then (by
        propagation) the root's. */
    function Route(name: string): (hs: seq<Handler>)
      reads this`handlers
      ensures |hs| >= |HandlersOf(name)| && hs[..|HandlersOf(name)|] == HandlersOf(name)
      ensures name != ROOT ==> hs[|HandlersOf(name)|..] == HandlersOf(ROOT)
      ensures name == ROOT ==> hs == HandlersOf(ROOT)
    {
      HandlersOf(name) + (if name != ROOT then HandlersOf(ROOT) else [])
    }

    /** `initLogger`. When `logFile` is given the file handler is built (and its open may fail,
        `openFails`), but it is never registered. */
    method InitLogger(name: string, level: int, logFile: Option<string>, logFileMode: string,
                      logFileLevel: int, mpQueue: RecordQueue?, prepend: Option<string>,
                      openFails: bool)
      returns (res: Result<LoggerObj, ConfigError>)
      requires Valid()
      modifies this
      ensures Valid()
      ensures console == old(console)
      ensures res.Err? <==> logFile.Some? && openFails
      ensures res.Err? ==> res.error == FileOpenError(logFile.value)
      ensures res.Err? ==> (handlers == old(handlers) && levels == old(levels)
                            && current == old(current) && bound == old(bound))
      ensures res.Ok? ==> handlers == old(handlers)[name := old(HandlersOf(name)) + NewHandlers(level, mpQueue)]
      ensures res.Ok? ==> levels == old(levels)[name := level]
      ensures res.Ok? ==> (res.value == Wrap(name, prepend) && current == res.value
                           && bound == MethodsOf(res.value))
    {
      if logFile.Some? {
        if openFails {
          return Err(FileOpenError(logFile.value));
        }
        var fileHandler := FileHandler(logFile.value, logFileMode, logFileLevel);
      }
      ghost var prior := HandlersOf(name);
      handlers := handlers[name := HandlersOf(name) + [ConsoleHandler(level)]];
      if mpQueue != null {
        handlers := handlers[name := handlers[name] + [QueueHandler(mpQueue)]];
        assert prior + [ConsoleHandler(level)] + [QueueHandler(mpQueue)] == prior + NewHandlers(level, mpQueue);
      }
      levels := levels[name := level];
      var logger := Wrap(name, prepend);
      bound := MethodsOf(logger);
      current := logger;
      return Ok(logger);
    }

    /** The backend's `callHandlers` over the handlers `hs`: each one that accepts `r` writes it
        once, in order; with no handler at all `lastResort` writes it from WARNING up. */
    method CallHandlers(hs: seq<Handler>, r: Record)
      modifies this`console, QueuesIn(hs)
      ensures console == old(console) + ToConsole(hs, r) + LastResort(hs, r)
      ensures forall q | q in QueuesIn(hs) :: q.items == old(q.items) + ToQueue(hs, r, q)
    {
      var i := 0;
      while i < |hs|
        invariant 0 <= i <= |hs|
        invariant console == old(console) + ToConsole(hs[..i], r)
        invariant forall q | q in QueuesIn(hs) :: q.items == old(q.items) + ToQueue(hs[..i], r, q)
      {
        CallHandler(hs, i, r);
        ToConsoleSnoc(hs[..i], hs[i], r);
        ToQueueSnoc(hs[..i], hs[i], r);
        assert hs[..i + 1] == hs[..i] + [hs[i]];
        i := i + 1;
      }
      assert hs[..|hs|] == hs;
      if hs == [] && r.levelno >= WARNING {
        console := console + [r];
      }
    }

    /** Handler `hs[i]` of `callHandlers`: a console handler accepting `r` writes it to the
        console, a queue handler accepting it puts it on its queue, and nothing else changes. */
    method CallHandler(hs: seq<Handler>, i: int, r: Record)
      requires 0 <= i < |hs|
      modifies this`console, QueuesIn(hs)
      ensures console == old(console) + (if hs[i].ConsoleHandler? && Accepts(hs[i], r) then [r] else [])
      ensures forall q | q in QueuesIn(hs) ::
                q.items == old(q.items) + (if hs[i].QueueHandler? && hs[i].queue == q && Accepts(hs[i], r) then [r] else [])
    {
      var h := hs[i];
      if h.ConsoleHandler? && Accepts(h, r) {
        console := console + [r];
      } else if h.QueueHandler? && Accepts(h, r) {
        assert h.queue in QueuesIn(hs);
        h.queue.Put(r);
      }
    }

    /** Emitting a message at `level` through `obj`: the adapter prefixes it, `isEnabledFor`
        gates it, then the handlers of the logger and, by propagation, of the root are called. */
    method Emit(obj: LoggerObj, level: int, msg: string)
      requires Valid()
      modifies this`console, QueuesIn(Route(obj.name))
      ensures Valid()
      ensures var r := Record(level, MessageVia(obj, msg));
              var hs := Route(obj.name);
              var on := Enabled(obj.name, level);
              && console == old(console) + (if on then ToConsole(hs, r) + LastResort(hs, r) else [])
              && forall q | q in QueuesIn(hs) ::
                   q.items == old(q.items) + (if on then ToQueue(hs, r, q) else [])
    {
      var r := Record(level, MessageVia(obj, msg));
      if Enabled(obj.name, level) {
        CallHandlers(Route(obj.name), r);
      }
    }

    /** `initLogListener`: a fresh empty queue and the logger the listener will hand records
        to, which defaults to the current `_logger`. Starting the thread is not modelled. */
    method InitLogListener(logger: Option<LoggerObj>) returns (q: RecordQueue, target: LoggerObj)
      ensures fresh(q) && q.items == []
      ensures target == if logger.None? then current else logger.value
    {
      target := if logger.None? then current else logger.value;
      q := new RecordQueue();
    }

    /** `killListener`: configure the killer logger with a queue handler on `mpQueue`, then
        emit the sentinel through it at INFO. */
    method KillListener(mpQueue: RecordQueue?)
      requires Valid()
      modifies this, QueuesIn(Route(KILLER)), if mpQueue != null then {mpQueue} else {}
      ensures Valid()
      ensures handlers == old(handlers)[KILLER := old(HandlersOf(KILLER)) + NewHandlers(DEBUG, mpQueue)]
      ensures levels == old(levels)[KILLER := DEBUG]
      ensures current == Plain(KILLER) && bound == MethodsOf(Plain(KILLER))
      ensures Route(KILLER) == old(HandlersOf(KILLER)) + NewHandlers(DEBUG, mpQueue) + old(HandlersOf(ROOT))
      ensures mpQueue != null ==> mpQueue in QueuesIn(Route(KILLER))
      ensures console == old(console) + ToConsole(Route(KILLER), KillRecord())
      ensures forall q | q in QueuesIn(Route(KILLER)) ::
                q.items == old(q.items) + ToQueue(Route(KILLER), KillRecord(), q)
    {
      ghost var before := HandlersOf(KILLER);
      ghost var rootHs := HandlersOf(ROOT);
      var res := InitLogger(KILLER, DEBUG, None, DEFAULT_FILE_MODE, WARNING, mpQueue, None, false);
      assert HandlersOf(ROOT) == rootHs;
      assert Route(KILLER) == before + NewHandlers(DEBUG, mpQueue) + rootHs;
      KillerQueues(before, mpQueue, rootHs);
      EmitKill(res.value);
    }

    /** The emission half of `killListener`: once the killer logger is at DEBUG and has a
        handler, `info(LISTENER_KILL_MSG)` passes every gate and reaches each handler on the
        route unchanged. */
    method EmitKill(obj: LoggerObj)
      requires Valid() && obj == Wrap(KILLER, None)
      requires KILLER in levels && levels[KILLER] == DEBUG && Route(KILLER) != []
      modifies this`console, QueuesIn(Route(KILLER))
      ensures Valid()
      ensures console == old(console) + ToConsole(Route(KILLER), KillRecord())
      ensures forall q | q in QueuesIn(Route(KILLER)) ::
                q.items == old(q.items) + ToQueue(Route(KILLER), KillRecord(), q)
    {
      assert Record(INFO, MessageVia(obj, LISTENER_KILL_MSG)) == KillRecord();
      assert Enabled(KILLER, INFO);
      Emit(obj, INFO, LISTENER_KILL_MSG);
    }
  }
}
