/** The aggregation pipeline end to end: producer processes log onto the listener's queue
    through queue-configured loggers, then the parent kills the listener. */
module Pipeline {
  import opened Records
  import opened Wrappers
  import opened Queues
  import opened Adapter
  import opened Registry
  import opened Listener

  /** The levels of a producer's five calls, `debug` to `critical`. */
  const PRODUCER_LEVELS: seq<int> := [DEBUG, INFO, WARNING, ERROR, CRITICAL]

  /** The text a producer logs at each of those levels. */
  const PRODUCER_TEXTS: seq<string> :=
    ["Multiprocessing - Debug message", "Multiprocessing - Info message",
     "Multiprocessing - Warning message", "Multiprocessing - Error message",
     "Multiprocessing - Critical message"]

  /** A message longer than the kill text can never be taken for the sentinel. */
  lemma LongMessageIsData(r: Record)
    requires |r.message| > |LISTENER_KILL_MSG|
    ensures !IsSentinel(r)
  {
  }

  /** The record of a producer's `k`-th call: its level, and its text behind the prefix the
      adapter `initLogger` installs (none when the prefix is empty). */
  function ProducerRecord(prefix: string, k: int): (r: Record)
    requires 0 <= k < 5
    ensures r.levelno == PRODUCER_LEVELS[k]
    ensures !IsSentinel(r)
  {
    var r := Record(PRODUCER_LEVELS[k], MessageVia(Wrap(DEFAULT_NAME, Some(prefix)), PRODUCER_TEXTS[k]));
    LongMessageIsData(r);
    r
  }

  /** The five records a producer with `prefix` puts on the queue, one per level. */
  function ProducerRecords(prefix: string): (rs: seq<Record>)
    ensures |rs| == 5
    ensures forall k | 0 <= k < 5 :: rs[k] == ProducerRecord(prefix, k)
  {
    [ProducerRecord(prefix, 0), ProducerRecord(prefix, 1), ProducerRecord(prefix, 2),
     ProducerRecord(prefix, 3), ProducerRecord(prefix, 4)]
  }

  /** A producer's messages are its texts, each behind the prefix when there is one. */
  lemma ProducerRecordsCarryPrefix(prefix: string)
    ensures forall k | 0 <= k < 5 ::
              if prefix == "" then ProducerRecord(prefix, k).message == PRODUCER_TEXTS[k]
              else Unprefix(prefix, ProducerRecord(prefix, k).message) == Some(PRODUCER_TEXTS[k])
  {
  }

  /** The number of calls worker `w` has made once the workers' calls were taken in the
      order `sched` (each entry names the worker that makes the next call). */
  function Calls(sched: seq<int>, w: int): (c: nat)
    ensures c <= |sched|
    decreases |sched|
  {
    if sched == [] then 0
    else Calls(sched[..|sched| - 1], w) + (if sched[|sched| - 1] == w then 1 else 0)
  }

  /** `sched` is a possible order of the calls of `n` concurrent workers: it names only those
      workers, and none of them more than five times. */
  predicate Schedules(sched: seq<int>, n: nat)
    ensures Schedules(sched, n) ==> |sched| <= 5 * n
  {
    if (forall i | 0 <= i < |sched| :: 0 <= sched[i] < n) && (forall w | 0 <= w < n :: Calls(sched, w) <= 5) then
      CallsBelowAll(sched, n);
      CallsBelowAtMostFive(sched, n, n);
      true
    else
      false
  }

  /** Every worker made all five calls: the order of a run in which all workers were joined. */
  predicate Complete(sched: seq<int>, n: nat)
    ensures Complete(sched, n) ==> Schedules(sched, n) && |sched| == 5 * n
  {
    if Schedules(sched, n) && forall w | 0 <= w < n :: Calls(sched, w) == 5 then
      CallsBelowAll(sched, n);
      CallsBelowFive(sched, n, n);
      true
    else
      false
  }

  /** A prefix of the call order counts no more calls of any worker than the whole. */
  lemma {:induction false} CallsPrefix(sched: seq<int>, i: int, w: int)
    requires 0 <= i <= |sched|
    ensures Calls(sched[..i], w) <= Calls(sched, w)
    decreases |sched|
  {
    if i < |sched| {
      CallsPrefix(sched[..|sched| - 1], i, w);
      assert sched[..|sched| - 1][..i] == sched[..i];
    } else {
      assert sched[..i] == sched;
    }
  }

  /** Taking one more call of a schedule: the first `i + 1` calls are still a schedule, worker
      `sched[i]` has made one call more, and that call is not beyond its fifth. */
  lemma ScheduleStep(sched: seq<int>, n: nat, i: int)
    requires Schedules(sched, n) && 0 <= i < |sched|
    ensures Schedules(sched[..i], n) && Schedules(sched[..i + 1], n)
    ensures Calls(sched[..i], sched[i]) < 5
    ensures forall v :: Calls(sched[..i + 1], v) == Calls(sched[..i], v) + (if v == sched[i] then 1 else 0)
  {
    assert sched[..i + 1][..i] == sched[..i];
    forall w | 0 <= w < n ensures Calls(sched[..i], w) <= 5 && Calls(sched[..i + 1], w) <= 5 {
      CallsPrefix(sched, i, w);
      CallsPrefix(sched, i + 1, w);
    }
    CallsPrefix(sched, i + 1, sched[i]);
    forall v ensures Calls(sched[..i + 1], v) == Calls(sched[..i], v) + (if v == sched[i] then 1 else 0) {
      assert sched[..i + 1][i] == sched[i];
    }
    assert forall j | 0 <= j < i + 1 :: sched[..i + 1][j] == sched[j];
    assert forall j | 0 <= j < i :: sched[..i][j] == sched[j];
    var upto := sched[..i + 1];
    assert forall w | 0 <= w < n :: Calls(upto, w) <= 5;
  }

  /** All calls but the last are still a schedule, and the last one is not beyond its
      worker's fifth. */
  lemma ScheduleInit(sched: seq<int>, n: nat)
    requires Schedules(sched, n) && sched != []
    ensures Schedules(sched[..|sched| - 1], n)
    ensures Calls(sched[..|sched| - 1], sched[|sched| - 1]) < 5
  {
    ScheduleStep(sched, n, |sched| - 1);
    assert sched[..|sched| - 1 + 1] == sched;
  }

  /** What lands on the queue when the workers with `prefixes` make their calls in the order
      `sched`: each call puts that worker's next record. */
  function Interleave(prefixes: seq<string>, sched: seq<int>): (rs: seq<Record>)
    requires Schedules(sched, |prefixes|)
    ensures |rs| == |sched|
    decreases |sched|
  {
    if sched == [] then []
    else
      ScheduleInit(sched, |prefixes|);
      var prev := sched[..|sched| - 1];
      var w := sched[|sched| - 1];
      Interleave(prefixes, prev) + [ProducerRecord(prefixes[w], Calls(prev, w))]
  }

  /** The first `i + 1` calls put what the first `i` put, then worker `sched[i]`'s next record. */
  lemma InterleaveStep(prefixes: seq<string>, sched: seq<int>, i: int)
    requires Schedules(sched, |prefixes|) && 0 <= i < |sched|
    ensures Schedules(sched[..i], |prefixes|) && Schedules(sched[..i + 1], |prefixes|)
    ensures Calls(sched[..i], sched[i]) < 5
    ensures Interleave(prefixes, sched[..i + 1])
         == Interleave(prefixes, sched[..i]) + [ProducerRecord(prefixes[sched[i]], Calls(sched[..i], sched[i]))]
  {
    ScheduleStep(sched, |prefixes|, i);
    var upto := sched[..i + 1];
    assert upto[..|upto| - 1] == sched[..i] && upto[|upto| - 1] == sched[i];
  }

  /** The records of `rs` at the positions where `sched` names worker `w`. */
  function Of(rs: seq<Record>, sched: seq<int>, w: int): (mine: seq<Record>)
    requires |rs| == |sched|
    ensures |mine| == Calls(sched, w)
    decreases |rs|
  {
    if rs == [] then []
    else
      Of(rs[..|rs| - 1], sched[..|sched| - 1], w)
      + (if sched[|sched| - 1] == w then [rs[|rs| - 1]] else [])
  }

  /** Each worker's records reach the queue in its own call order: the positions of worker
      `w`'s calls hold the first `Calls(sched, w)` of its records, in order. */
  lemma {:induction false} InterleaveKeepsOrder(prefixes: seq<string>, sched: seq<int>, w: int)
    requires Schedules(sched, |prefixes|) && 0 <= w < |prefixes|
    ensures Of(Interleave(prefixes, sched), sched, w) == ProducerRecords(prefixes[w])[..Calls(sched, w)]
    decreases |sched|
  {
    if sched != [] {
      var i := |sched| - 1;
      var prev := sched[..i];
      ScheduleStep(sched, |prefixes|, i);
      assert sched[..i + 1] == sched;
      InterleaveKeepsOrder(prefixes, prev, w);
      var rs := Interleave(prefixes, sched);
      assert rs[..i] == Interleave(prefixes, prev);
      if sched[i] == w {
        var c := Calls(prev, w);
        var mine := ProducerRecords(prefixes[w]);
        assert mine[..c + 1] == mine[..c] + [mine[c]];
      }
    }
  }

  /** No worker ever puts the sentinel on the queue. */
  lemma {:induction false} InterleaveHasNoSentinel(prefixes: seq<string>, sched: seq<int>)
    requires Schedules(sched, |prefixes|)
    ensures forall i | 0 <= i < |sched| :: !IsSentinel(Interleave(prefixes, sched)[i])
    decreases |sched|
  {
    if sched != [] {
      var i := |sched| - 1;
      ScheduleStep(sched, |prefixes|, i);
      assert sched[..i + 1] == sched;
      InterleaveHasNoSentinel(prefixes, sched[..i]);
    }
  }

  /** The total number of calls of workers `0` … `n - 1`. */
  function CallsBelow(sched: seq<int>, n: nat): (total: nat)
  {
    if n == 0 then 0 else CallsBelow(sched, n - 1) + Calls(sched, n - 1)
  }

  /** One more call adds one to the total of the workers below `n` iff its worker is one. */
  lemma {:induction false} CallsBelowSnoc(sched: seq<int>, x: int, n: nat)
    ensures CallsBelow(sched + [x], n) == CallsBelow(sched, n) + (if 0 <= x < n then 1 else 0)
  {
    assert (sched + [x])[..|sched|] == sched;
    if n > 0 {
      CallsBelowSnoc(sched, x, n - 1);
    }
  }

  /** Every call is made by one of the `n` workers, so their calls add up to the length. */
  lemma {:induction false} CallsBelowAll(sched: seq<int>, n: nat)
    requires forall i | 0 <= i < |sched| :: 0 <= sched[i] < n
    ensures CallsBelow(sched, n) == |sched|
    decreases |sched|
  {
    if sched == [] {
      CallsBelowNone(n);
    } else {
      var prev := sched[..|sched| - 1];
      assert prev + [sched[|sched| - 1]] == sched;
      CallsBelowAll(prev, n);
      CallsBelowSnoc(prev, sched[|sched| - 1], n);
    }
  }

  /** With no calls made, the total is zero. */
  lemma {:induction false} CallsBelowNone(n: nat)
    ensures CallsBelow([], n) == 0
  {
    if n > 0 {
      CallsBelowNone(n - 1);
    }
  }

  /** When each of the first `m` workers made five calls, they made `5 * m` together. */
  lemma {:induction false} CallsBelowFive(sched: seq<int>, n: nat, m: nat)
    requires m <= n && forall w | 0 <= w < n :: Calls(sched, w) == 5
    ensures CallsBelow(sched, m) == 5 * m
  {
    if m > 0 {
      CallsBelowFive(sched, n, m - 1);
    }
  }

  /** When none of the first `m` workers made more than five calls, they made at most `5 * m`. */
  lemma {:induction false} CallsBelowAtMostFive(sched: seq<int>, n: nat, m: nat)
    requires m <= n && forall w | 0 <= w < n :: Calls(sched, w) <= 5
    ensures CallsBelow(sched, m) <= 5 * m
  {
    if m > 0 {
      CallsBelowAtMostFive(sched, n, m - 1);
    }
  }

  /** A complete run of the workers puts exactly `5 * N` records on the queue, and the
      positions of each worker's calls hold all five of its records, in its call order. */
  lemma CompleteRun(prefixes: seq<string>, sched: seq<int>)
    requires Complete(sched, |prefixes|)
    ensures |Interleave(prefixes, sched)| == 5 * |prefixes|
    ensures forall w | 0 <= w < |prefixes| ::
              Of(Interleave(prefixes, sched), sched, w) == ProducerRecords(prefixes[w])
  {
    CallsBelowAll(sched, |prefixes|);
    CallsBelowFive(sched, |prefixes|, |prefixes|);
    forall w | 0 <= w < |prefixes|
      ensures Of(Interleave(prefixes, sched), sched, w) == ProducerRecords(prefixes[w])
    {
      InterleaveKeepsOrder(prefixes, sched, w);
      assert ProducerRecords(prefixes[w])[..5] == ProducerRecords(prefixes[w]);
    }
  }

  /** One `debug` … `critical` call of a producer whose logger `obj` has a console handler
      and a queue handler on `q`, at DEBUG: its prefixed record reaches `q`. */
  method LogOne(reg: LoggerRegistry, obj: LoggerObj, q: RecordQueue, level: int, msg: string)
    requires reg.Valid() && obj.name != ROOT && reg.Route(obj.name) == NewHandlers(DEBUG, q)
    requires obj.name in reg.levels && reg.levels[obj.name] == DEBUG && level >= DEBUG
    modifies reg`console, q
    ensures reg.Valid()
    ensures q.items == old(q.items) + [Record(level, MessageVia(obj, msg))]
  {
    ghost var r := Record(level, MessageVia(obj, msg));
    ReconfigureQueue([], DEBUG, q, r, q);
    assert [] + NewHandlers(DEBUG, q) == NewHandlers(DEBUG, q);
    assert NewHandlers(DEBUG, q)[1] == QueueHandler(q);
    assert q in QueuesIn(reg.Route(obj.name));
    reg.Emit(obj, level, msg);
  }

  /** One producer (its own process, so its own fresh registry): configure the default logger
      with the shared queue and a prefix, then log one message at each level. Exactly its five
      prefixed records reach the queue, in order. */
  method Producer(q: RecordQueue, prefix: string)
    modifies q
    ensures q.items == old(q.items) + ProducerRecords(prefix)
  {
    var reg, obj := ConfigureProducer(q, prefix);
    ghost var before := q.items;
    LogCall(reg, obj, q, prefix, 0);
    LogCall(reg, obj, q, prefix, 1);
    LogCall(reg, obj, q, prefix, 2);
    LogCall(reg, obj, q, prefix, 3);
    LogCall(reg, obj, q, prefix, 4);
    AppendFive(before, ProducerRecords(prefix));
  }

  /** Appending five records one at a time appends the five-record list. */
  lemma AppendFive(s: seq<Record>, rs: seq<Record>)
    requires |rs| == 5
    ensures s + [rs[0]] + [rs[1]] + [rs[2]] + [rs[3]] + [rs[4]] == s + rs
  {
  }

  /** What a producer's logger must look like for its calls to reach `q`: at DEBUG, routed to
      a console handler and a queue handler on `q`. */
  ghost predicate ProducerReady(reg: LoggerRegistry, q: RecordQueue)
    reads reg`levels, reg`handlers, reg`bound, reg`current
  {
    && reg.Valid() && reg.Route(DEFAULT_NAME) == NewHandlers(DEBUG, q)
    && DEFAULT_NAME in reg.levels && reg.levels[DEFAULT_NAME] == DEBUG
  }

  /** A worker's registry right after its `initLogger(mpQueue=q, prepend=prefix)`: the
      default logger alone has handlers (console and queue) and a level (DEBUG), and it is
      `_logger` and the target of `debug` … `critical`. */
  ghost predicate WorkerState(reg: LoggerRegistry, q: RecordQueue, prefix: string)
    reads reg`levels, reg`handlers, reg`bound, reg`current
  {
    && reg.handlers == map[DEFAULT_NAME := NewHandlers(DEBUG, q)]
    && reg.levels == map[ROOT := WARNING, DEFAULT_NAME := DEBUG]
    && reg.current == Wrap(DEFAULT_NAME, Some(prefix)) && reg.bound == MethodsOf(reg.current)
  }

  /** Such a registry sends its default logger's calls to `q`. */
  lemma WorkerStateReady(reg: LoggerRegistry, q: RecordQueue, prefix: string)
    requires WorkerState(reg, q, prefix)
    ensures ProducerReady(reg, q)
  {
    assert reg.HandlersOf(ROOT) == [];
    assert reg.Route(DEFAULT_NAME) == NewHandlers(DEBUG, q) + [];
  }

  /** Every worker's registry is in that state. */
  ghost predicate WorkersReady(regs: seq<LoggerRegistry>, q: RecordQueue, prefixes: seq<string>)
    reads regs`levels, regs`handlers, regs`bound, regs`current
  {
    |regs| == |prefixes| && forall v | 0 <= v < |regs| :: WorkerState(regs[v], q, prefixes[v])
  }

  /** `objs` are the adapters `initLogger` returned to the workers with `prefixes`. */
  ghost predicate AdaptersFor(objs: seq<LoggerObj>, prefixes: seq<string>)
  {
    |objs| == |prefixes| && forall v | 0 <= v < |objs| :: objs[v] == Wrap(DEFAULT_NAME, Some(prefixes[v]))
  }

  /** The adapter for worker `n` extends those of the workers before it. */
  lemma AdaptersForSnoc(objs: seq<LoggerObj>, prefixes: seq<string>, n: int)
    requires 0 <= n < |prefixes| && AdaptersFor(objs, prefixes[..n])
    ensures AdaptersFor(objs + [Wrap(DEFAULT_NAME, Some(prefixes[n]))], prefixes[..n + 1])
  {
    var objs' := objs + [Wrap(DEFAULT_NAME, Some(prefixes[n]))];
    assert forall v | 0 <= v < n :: objs'[v] == objs[v] && prefixes[..n + 1][v] == prefixes[..n][v];
  }

  /** One more configured worker keeps all of them configured. */
  lemma WorkersReadySnoc(regs: seq<LoggerRegistry>, reg: LoggerRegistry, q: RecordQueue,
                         prefixes: seq<string>, n: int)
    requires 0 <= n < |prefixes| && WorkersReady(regs, q, prefixes[..n]) && WorkerState(reg, q, prefixes[n])
    ensures WorkersReady(regs + [reg], q, prefixes[..n + 1])
  {
    assert forall v | 0 <= v < n :: (regs + [reg])[v] == regs[v] && prefixes[..n + 1][v] == prefixes[..n][v];
  }

  /** The producer's `k`-th call, `debug` … `critical`: its `k`-th record reaches `q`. */
  method LogCall(reg: LoggerRegistry, obj: LoggerObj, q: RecordQueue, prefix: string, k: int)
    requires 0 <= k < 5 && obj == Wrap(DEFAULT_NAME, Some(prefix)) && ProducerReady(reg, q)
    modifies reg`console, q
    ensures ProducerReady(reg, q)
    ensures q.items == old(q.items) + [ProducerRecord(prefix, k)]
  {
    LogOne(reg, obj, q, PRODUCER_LEVELS[k], PRODUCER_TEXTS[k]);
  }

  /** A producer's `initLogger(level=DEBUG, mp_queue=q, prepend=prefix)` on a fresh
      registry: the default logger, wrapped with `prefix`, now routes to exactly a console
      handler and a queue handler on `q`. */
  method ConfigureProducer(q: RecordQueue, prefix: string) returns (reg: LoggerRegistry, obj: LoggerObj)
    ensures fresh(reg) && ProducerReady(reg, q) && obj == Wrap(DEFAULT_NAME, Some(prefix))
    ensures WorkerState(reg, q, prefix)
    ensures q.items == old(q.items)
  {
    reg := new LoggerRegistry();
    var res := reg.InitLogger(DEFAULT_NAME, DEBUG, None, DEFAULT_FILE_MODE, WARNING, q, Some(prefix), false);
    obj := res.value;
    assert reg.Route(DEFAULT_NAME) == NewHandlers(DEBUG, q) + [];
    assert NewHandlers(DEBUG, q) + [] == NewHandlers(DEBUG, q);
  }

  /** Each worker's `initLogger`, in its own process on its own fresh registry. It touches no
      shared state, so it is taken before any worker logs. */
  method ConfigureWorkers(q: RecordQueue, prefixes: seq<string>)
      returns (regs: seq<LoggerRegistry>, objs: seq<LoggerObj>)
    ensures |regs| == |prefixes| && |objs| == |prefixes|
    ensures forall v | 0 <= v < |regs| :: fresh(regs[v])
    ensures AdaptersFor(objs, prefixes)
    ensures WorkersReady(regs, q, prefixes)
    ensures q.items == old(q.items)
  {
    regs, objs := [], [];
    while |regs| < |prefixes|
      invariant |regs| <= |prefixes| && |objs| == |regs|
      invariant forall v | 0 <= v < |regs| :: fresh(regs[v])
      invariant AdaptersFor(objs, prefixes[..|regs|])
      invariant WorkersReady(regs, q, prefixes[..|regs|])
      invariant q.items == old(q.items)
      decreases |prefixes| - |regs|
    {
      var reg, obj := ConfigureProducer(q, prefixes[|regs|]);
      WorkersReadySnoc(regs, reg, q, prefixes, |regs|);
      AdaptersForSnoc(objs, prefixes, |regs|);
      regs, objs := regs + [reg], objs + [obj];
    }
    assert prefixes[..|regs|] == prefixes;
  }

  /** The workers with `prefixes` running at the same time: the scheduler lets them make their
      `debug` … `critical` calls in the order `sched`, each call one `put` on the shared queue.
      The queue receives exactly `Interleave(prefixes, sched)`. */
  method RunWorkers(q: RecordQueue, prefixes: seq<string>, sched: seq<int>)
    requires Schedules(sched, |prefixes|)
    modifies q
    ensures q.items == old(q.items) + Interleave(prefixes, sched)
  {
    var regs, objs := ConfigureWorkers(q, prefixes);
    RunSchedule(regs, objs, q, prefixes, sched);
  }

  /** The configured workers make their calls in the order `sched`. */
  method RunSchedule(regs: seq<LoggerRegistry>, objs: seq<LoggerObj>, q: RecordQueue, prefixes: seq<string>,
                     sched: seq<int>)
    requires Schedules(sched, |prefixes|) && WorkersReady(regs, q, prefixes)
    requires AdaptersFor(objs, prefixes)
    modifies regs`console, q
    ensures q.items == old(q.items) + Interleave(prefixes, sched)
  {
    var i := 0;
    while i < |sched|
      invariant 0 <= i <= |sched| && Schedules(sched[..i], |prefixes|)
      invariant WorkersReady(regs, q, prefixes)
      invariant q.items == old(q.items) + Interleave(prefixes, sched[..i])
    {
      Turn(regs, objs, q, prefixes, sched, i, old(q.items));
      i := i + 1;
    }
    assert sched[..i] == sched;
  }

  /** Step `i` of the schedule: worker `sched[i]` makes its next call. */
  method Turn(regs: seq<LoggerRegistry>, objs: seq<LoggerObj>, q: RecordQueue, prefixes: seq<string>,
              sched: seq<int>, i: int, ghost base: seq<Record>)
    requires Schedules(sched, |prefixes|) && 0 <= i < |sched|
    requires WorkersReady(regs, q, prefixes)
    requires AdaptersFor(objs, prefixes)
    requires Schedules(sched[..i], |prefixes|) && q.items == base + Interleave(prefixes, sched[..i])
    modifies regs`console, q
    ensures Schedules(sched[..i + 1], |prefixes|) && WorkersReady(regs, q, prefixes)
    ensures q.items == base + Interleave(prefixes, sched[..i + 1])
  {
    var w := sched[i];
    InterleaveStep(prefixes, sched, i);
    WorkerCall(regs, objs, q, prefixes, w, Calls(sched[..i], w), regs[w]);
  }

  /** Worker `w` makes its `k`-th call: its `k`-th record reaches `q`, and every worker's
      registry stays as configured. */
  method WorkerCall(regs: seq<LoggerRegistry>, objs: seq<LoggerObj>, q: RecordQueue, prefixes: seq<string>,
                    w: int, k: int, reg: LoggerRegistry)
    requires WorkersReady(regs, q, prefixes) && |objs| == |prefixes|
    requires 0 <= w < |prefixes| && reg == regs[w] && objs[w] == Wrap(DEFAULT_NAME, Some(prefixes[w]))
    requires 0 <= k < 5
    modifies reg`console, q
    ensures WorkersReady(regs, q, prefixes)
    ensures q.items == old(q.items) + [ProducerRecord(prefixes[w], k)]
  {
    WorkerStateReady(reg, q, prefixes[w]);
    LogCall(reg, objs[w], q, prefixes[w], k);
  }

  /** The parent configures its logger and starts the listener, the workers with `prefixes`
      log onto the queue concurrently (their calls in the order `sched`), and the parent kills
      the listener once they have all been joined. The listener stops, having handed to its
      target exactly what arrived, in arrival order, never the sentinel: `5 * N` records, each
      worker's five in its own call order at the positions of its calls. */
  method ProducersThenShutdown(prefixes: seq<string>, sched: seq<int>)
      returns (handled: seq<Record>, stopped: bool)
    requires Complete(sched, |prefixes|)
    ensures stopped
    ensures handled == Interleave(prefixes, sched)
    ensures |handled| == 5 * |prefixes|
    ensures forall w | 0 <= w < |prefixes| :: Of(handled, sched, w) == ProducerRecords(prefixes[w])
    ensures forall r | r in handled :: !IsSentinel(r)
  {
    var parent := new LoggerRegistry();
    var _ := parent.InitLogger("_logger_test_multi", DEBUG, None, DEFAULT_FILE_MODE, WARNING, null, None, false);
    var q, target := parent.InitLogListener(None);
    assert parent.HandlersOf(KILLER) == [] && parent.HandlersOf(ROOT) == [];
    RunWorkers(q, prefixes, sched);
    InterleaveHasNoSentinel(prefixes, sched);
    handled, stopped := KillAndDrain(parent, q, target);
    CompleteRun(prefixes, sched);
  }

  /** The parent's `killListener(q)` with no producer left, then the listener draining what
      is on the queue: it hands over everything already there, in order, and stops. Neither
      the killer logger nor the root may already hold a queue handler on `q`, otherwise the
      kill would put more than one sentinel on it. */
  method KillAndDrain(parent: LoggerRegistry, q: RecordQueue, target: LoggerObj)
      returns (handled: seq<Record>, stopped: bool)
    requires parent.Valid()
    requires q !in QueuesIn(parent.HandlersOf(KILLER)) && q !in QueuesIn(parent.HandlersOf(ROOT))
    requires forall i | 0 <= i < |q.items| :: !IsSentinel(q.items[i])
    modifies parent, q, QueuesIn(parent.Route(KILLER))
    ensures stopped && handled == old(q.items)
  {
    ghost var produced := q.items;
    KillAddsOneSentinel(parent.HandlersOf(KILLER), parent.HandlersOf(ROOT), q);
    parent.KillListener(q);
    assert q.items == produced + [KillRecord()];
    var wakes: seq<seq<Record>> := [[]];
    var delivered, failures, woken;
    handled, delivered, failures, stopped, woken := Listen(q, target, wakes, []);
    assert wakes[..woken] == wakes && wakes[..0] == [];
    assert Flatten(wakes) == [];
    assert produced + [KillRecord()] + Flatten(wakes) == produced + [KillRecord()] + [];
    ShutdownAfterProducers(produced, [], [], target);
  }
}
