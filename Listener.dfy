/** The listener loop of `listen`: pop records in queue order, stop on the sentinel without
    forwarding it, hand every other record to the target logger, swallow a failing record. */
module Listener {
  import opened Records
  import opened Queues
  import opened Adapter

  /** What a drain has done so far: the records handed to `handle` (in order), those of them
      whose `handle` returned normally, the number whose `handle` raised (each one printed as a
      traceback), whether the sentinel was seen, and the records left behind it. */
  datatype Outcome = Outcome(handled: seq<Record>, delivered: seq<Record>, failures: nat,
                             stopped: bool, rest: seq<Record>)

  /** Whether `handle` raises on the `i`-th record popped. `raises` is the oracle for the
      target's handlers (positions past its end do not raise). A prefixing adapter has no
      `handle` method at all, so every dispatch to one raises. */
  predicate Fails(target: LoggerObj, raises: seq<bool>, i: nat)
    ensures target.Adapted? ==> Fails(target, raises, i)
    ensures i >= |raises| ==> (Fails(target, raises, i) <==> target.Adapted?)
  {
    target.Adapted? || (i < |raises| && raises[i])
  }

  /** One popped record `r` (`fails`: whether its dispatch raises). */
  function Step(o: Outcome, r: Record, fails: bool): (next: Outcome)
  {
    if o.stopped then o.(rest := o.rest + [r])
    else if IsSentinel(r) then o.(stopped := true)
    else if fails then o.(handled := o.handled + [r], failures := o.failures + 1)
    else o.(handled := o.handled + [r], delivered := o.delivered + [r])
  }

  /** One step stops iff the listener had stopped or the record is the sentinel; before the
      stop the record is handled once, and it is delivered only if its dispatch does not raise;
      after the stop it is left in the queue. */
  lemma StepAccounts(o: Outcome, r: Record, fails: bool)
    ensures Step(o, r, fails).stopped <==> o.stopped || IsSentinel(r)
    ensures Step(o, r, fails).handled == if o.stopped || IsSentinel(r) then o.handled else o.handled + [r]
    ensures o.stopped ==> Step(o, r, fails).rest == o.rest + [r]
    ensures !o.stopped ==> Step(o, r, fails).rest == o.rest
    ensures Step(o, r, fails).delivered == if o.stopped || IsSentinel(r) || fails then o.delivered else o.delivered + [r]
    ensures Step(o, r, fails).failures == if !o.stopped && !IsSentinel(r) && fails then o.failures + 1 else o.failures
  {
  }

  /** The listener's behaviour on the record stream `q`, taken in order. */
  function Drain(q: seq<Record>, raises: seq<bool>, target: LoggerObj): (o: Outcome)
    ensures |o.delivered| + o.failures == |o.handled|
    ensures |o.handled| + (if o.stopped then 1 else 0) + |o.rest| == |q|
    ensures !o.stopped ==> o.rest == []
    decreases |q|
  {
    if q == [] then Outcome([], [], 0, false, [])
    else Step(Drain(q[..|q| - 1], raises, target), q[|q| - 1], Fails(target, raises, |q| - 1))
  }

  /** `k` is the position of the first sentinel in `q`, or `|q|` when there is none. */
  ghost predicate IsFirstSentinel(q: seq<Record>, k: nat)
  {
    && k <= |q|
    && (forall i | 0 <= i < k :: !IsSentinel(q[i]))
    && (k < |q| ==> IsSentinel(q[k]))
  }

  function FirstSentinel(q: seq<Record>): (k: nat)
    ensures IsFirstSentinel(q, k)
    decreases |q|
  {
    if q == [] || IsSentinel(q[0]) then 0
    else
      var k := 1 + FirstSentinel(q[1..]);
      assert forall i | 1 <= i < k :: q[i] == q[1..][i - 1];
      k
  }

  /** The records of `s` whose dispatch does not raise, in order. */
  function Kept(s: seq<Record>, raises: seq<bool>, target: LoggerObj): (kept: seq<Record>)
    decreases |s|
  {
    if s == [] then []
    else Kept(s[..|s| - 1], raises, target)
         + (if Fails(target, raises, |s| - 1) then [] else [s[|s| - 1]])
  }

  /** The records producers put on the queue, batch after batch. */
  function Flatten(batches: seq<seq<Record>>): (all: seq<Record>)
    decreases |batches|
  {
    if batches == [] then [] else Flatten(batches[..|batches| - 1]) + batches[|batches| - 1]
  }

  /** One more batch adds its records at the end of the stream. */
  lemma FlattenStep(batches: seq<seq<Record>>, k: int)
    requires 0 <= k < |batches|
    ensures Flatten(batches[..k + 1]) == Flatten(batches[..k]) + batches[k]
  {
    assert batches[..k + 1][..k] == batches[..k];
  }

  lemma {:induction false} KeptCount(s: seq<Record>, raises: seq<bool>, target: LoggerObj)
    ensures |Kept(s, raises, target)| <= |s|
    ensures forall r | r in Kept(s, raises, target) :: r in s
    decreases |s|
  {
    if s != [] {
      var s' := s[..|s| - 1];
      KeptCount(s', raises, target);
      assert forall r | r in s' :: r in s;
    }
  }

  /** Appending one record to the stream is one more step. */
  lemma DrainSnoc(p: seq<Record>, x: Record, raises: seq<bool>, target: LoggerObj)
    ensures Drain(p + [x], raises, target) == Step(Drain(p, raises, target), x, Fails(target, raises, |p|))
  {
    assert (p + [x])[..|p|] == p;
  }

  /** `o` is what the listener must have done on stream `q` whose first sentinel is at `k`. */
  ghost predicate Characterises(o: Outcome, q: seq<Record>, raises: seq<bool>, target: LoggerObj, k: nat)
    requires k <= |q|
  {
    && o.handled == q[..k]
    && (o.stopped <==> k < |q|)
    && o.rest == (if k < |q| then q[k + 1..] else [])
    && o.delivered == Kept(q[..k], raises, target)
    && o.failures + |o.delivered| == k
  }

  lemma StepAfterStop(p: seq<Record>, x: Record, raises: seq<bool>, target: LoggerObj, o: Outcome, k: nat)
    requires IsFirstSentinel(p, k) && k < |p| && Characterises(o, p, raises, target, k)
    ensures IsFirstSentinel(p + [x], k)
    ensures Characterises(Step(o, x, Fails(target, raises, |p|)), p + [x], raises, target, k)
  {
    assert (p + [x])[..k] == p[..k];
    assert (p + [x])[k + 1..] == p[k + 1..] + [x];
  }

  lemma StepOnSentinel(p: seq<Record>, x: Record, raises: seq<bool>, target: LoggerObj, o: Outcome)
    requires IsFirstSentinel(p, |p|) && Characterises(o, p, raises, target, |p|) && IsSentinel(x)
    ensures IsFirstSentinel(p + [x], |p|)
    ensures Characterises(Step(o, x, Fails(target, raises, |p|)), p + [x], raises, target, |p|)
  {
    assert (p + [x])[..|p|] == p;
    assert p[..|p|] == p;
  }

  lemma StepOnData(p: seq<Record>, x: Record, raises: seq<bool>, target: LoggerObj, o: Outcome)
    requires IsFirstSentinel(p, |p|) && Characterises(o, p, raises, target, |p|) && !IsSentinel(x)
    ensures IsFirstSentinel(p + [x], |p| + 1)
    ensures Characterises(Step(o, x, Fails(target, raises, |p|)), p + [x], raises, target, |p| + 1)
  {
    var q := p + [x];
    assert q[..|q|] == q && p[..|p|] == p;
    assert q[..|q| - 1] == p;
    assert forall i | 0 <= i < |p| :: q[i] == p[i];
  }

  /** What the listener does on any stream: it hands exactly the records before the first
      sentinel to `handle`, once each and in order; it stops iff there is a sentinel, leaving
      everything behind it in the queue; the records whose dispatch raised are dropped and
      counted, the others delivered in order. */
  lemma {:induction false} DrainCharacterised(q: seq<Record>, raises: seq<bool>, target: LoggerObj, k: nat)
    requires IsFirstSentinel(q, k)
    ensures Drain(q, raises, target).handled == q[..k]
    ensures Drain(q, raises, target).stopped <==> k < |q|
    ensures Drain(q, raises, target).rest == if k < |q| then q[k + 1..] else []
    ensures Drain(q, raises, target).delivered == Kept(q[..k], raises, target)
    ensures Drain(q, raises, target).failures + |Drain(q, raises, target).delivered| == k
    decreases |q|
  {
    if q == [] {
      assert q[..k] == [];
    } else {
      var p, x := q[..|q| - 1], q[|q| - 1];
      assert q == p + [x];
      var kp := FirstSentinel(p);
      DrainCharacterised(p, raises, target, kp);
      var o := Drain(p, raises, target);
      assert Characterises(o, p, raises, target, kp);
      DrainSnoc(p, x, raises, target);
      CharacterisesStep(p, x, raises, target, o, kp, k);
      assert Characterises(Drain(q, raises, target), q, raises, target, k);
    }
  }

  /** Appending one record to a characterised prefix keeps it characterised. */
  lemma CharacterisesStep(p: seq<Record>, x: Record, raises: seq<bool>, target: LoggerObj, o: Outcome,
                          kp: nat, k: nat)
    requires IsFirstSentinel(p, kp) && Characterises(o, p, raises, target, kp)
    requires IsFirstSentinel(p + [x], k)
    ensures Characterises(Step(o, x, Fails(target, raises, |p|)), p + [x], raises, target, k)
  {
    if kp < |p| {
      StepAfterStop(p, x, raises, target, o, kp);
      FirstSentinelUnique(p + [x], k, kp);
    } else if IsSentinel(x) {
      StepOnSentinel(p, x, raises, target, o);
      FirstSentinelUnique(p + [x], k, |p|);
    } else {
      StepOnData(p, x, raises, target, o);
      FirstSentinelUnique(p + [x], k, |p| + 1);
    }
  }

  lemma FirstSentinelUnique(q: seq<Record>, k1: nat, k2: nat)
    requires IsFirstSentinel(q, k1) && IsFirstSentinel(q, k2)
    ensures k1 == k2
  {
  }

  /** The sentinel is never handed to `handle`, so it never reaches the target's output. */
  lemma SentinelNeverForwarded(q: seq<Record>, raises: seq<bool>, target: LoggerObj)
    ensures forall r | r in Drain(q, raises, target).handled :: !IsSentinel(r)
    ensures forall r | r in Drain(q, raises, target).delivered :: !IsSentinel(r)
  {
    var k := FirstSentinel(q);
    DrainCharacterised(q, raises, target, k);
    KeptCount(q[..k], raises, target);
  }

  /** A record stops the listener only when it has both level INFO and the kill text; the
      kill text at another level, or another text at INFO, is ordinary data. */
  lemma StopsIffSentinel(q: seq<Record>, raises: seq<bool>, target: LoggerObj)
    ensures Drain(q, raises, target).stopped
        <==> exists i | 0 <= i < |q| :: q[i].levelno == INFO && q[i].message == LISTENER_KILL_MSG
  {
    var k := FirstSentinel(q);
    DrainCharacterised(q, raises, target, k);
  }

  /** A failing dispatch never stops the listener or changes which records it goes on to
      handle: only the split between delivered and dropped records depends on failures. */
  lemma FailuresDoNotStop(q: seq<Record>, raises1: seq<bool>, target1: LoggerObj,
                          raises2: seq<bool>, target2: LoggerObj)
    ensures Drain(q, raises1, target1).handled == Drain(q, raises2, target2).handled
    ensures Drain(q, raises1, target1).stopped == Drain(q, raises2, target2).stopped
    ensures Drain(q, raises1, target1).rest == Drain(q, raises2, target2).rest
  {
    var k := FirstSentinel(q);
    DrainCharacterised(q, raises1, target1, k);
    DrainCharacterised(q, raises2, target2, k);
  }

  lemma {:induction false} KeptAll(s: seq<Record>, raises: seq<bool>, target: LoggerObj)
    requires target.Plain? && forall i | 0 <= i < |raises| :: !raises[i]
    ensures Kept(s, raises, target) == s
    decreases |s|
  {
    if s != [] {
      KeptAll(s[..|s| - 1], raises, target);
    }
  }

  lemma {:induction false} KeptNone(s: seq<Record>, raises: seq<bool>, target: LoggerObj)
    requires target.Adapted?
    ensures Kept(s, raises, target) == []
    decreases |s|
  {
    if s != [] {
      KeptNone(s[..|s| - 1], raises, target);
    }
  }

  /** When `handle` never raises, the target receives every record before the sentinel. */
  lemma NoFailureDeliversAll(q: seq<Record>, raises: seq<bool>, target: LoggerObj)
    requires target.Plain? && forall i | 0 <= i < |raises| :: !raises[i]
    ensures Drain(q, raises, target).delivered == Drain(q, raises, target).handled
    ensures Drain(q, raises, target).failures == 0
  {
    var k := FirstSentinel(q);
    DrainCharacterised(q, raises, target, k);
    KeptAll(q[..k], raises, target);
  }

  /** A listener whose target is a prefixing adapter delivers nothing: every record raises. */
  lemma AdapterTargetDeliversNothing(q: seq<Record>, raises: seq<bool>, target: LoggerObj)
    requires target.Adapted?
    ensures Drain(q, raises, target).delivered == []
    ensures Drain(q, raises, target).failures == FirstSentinel(q)
  {
    var k := FirstSentinel(q);
    DrainCharacterised(q, raises, target, k);
    KeptNone(q[..k], raises, target);
  }

  /** Shutdown after all producers have finished: the listener handles exactly the producers'
      records, each once and in queue order, stops on the sentinel, and leaves later records. */
  lemma ShutdownAfterProducers(produced: seq<Record>, later: seq<Record>, raises: seq<bool>, target: LoggerObj)
    requires forall i | 0 <= i < |produced| :: !IsSentinel(produced[i])
    ensures Drain(produced + [KillRecord()] + later, raises, target).handled == produced
    ensures Drain(produced + [KillRecord()] + later, raises, target).stopped
    ensures Drain(produced + [KillRecord()] + later, raises, target).rest == later
  {
    var q := produced + [KillRecord()] + later;
    assert q[|produced|] == KillRecord();
    assert forall i | 0 <= i < |produced| :: q[i] == produced[i];
    assert IsFirstSentinel(q, |produced|);
    DrainCharacterised(q, raises, target, |produced|);
    assert q[..|produced|] == produced;
    assert q[|produced| + 1..] == later;
  }

  /** Once stopped, further records only pile up behind the sentinel. */
  lemma {:induction false} DrainAfterStop(p: seq<Record>, s: seq<Record>, raises: seq<bool>, target: LoggerObj)
    requires Drain(p, raises, target).stopped
    ensures Drain(p + s, raises, target) == Drain(p, raises, target).(rest := Drain(p, raises, target).rest + s)
    decreases |s|
  {
    if s == [] {
      assert p + s == p;
    } else {
      var s' := s[..|s| - 1];
      DrainAfterStop(p, s', raises, target);
      assert (p + s)[..|p + s| - 1] == p + s';
      assert s' + [s[|s| - 1]] == s;
    }
  }

  /** Producers putting a batch of records on the queue, one `put` after another. */
  method Produce(queue: RecordQueue, batch: seq<Record>)
    modifies queue
    ensures queue.items == old(queue.items) + batch
  {
    var j := 0;
    while j < |batch|
      invariant 0 <= j <= |batch|
      invariant queue.items == old(queue.items) + batch[..j]
    {
      assert batch[..j + 1] == batch[..j] + [batch[j]];
      queue.Put(batch[j]);
      j := j + 1;
    }
    assert batch[..|batch|] == batch;
  }

  /** The inner loop of `listen`: pop while the queue is not empty; on the sentinel set the
      stop flag and break; otherwise hand the record to `handle`, swallowing a failure.
      `done` is what was popped on earlier wakes and `handled`, `delivered`, `failures` what
      was done with it. */
  method DrainAvailable(queue: RecordQueue, target: LoggerObj, raises: seq<bool>, ghost done: seq<Record>,
                        popped0: nat, handled0: seq<Record>, delivered0: seq<Record>, failures0: nat)
    returns (handled: seq<Record>, delivered: seq<Record>, failures: nat, stop: bool, popped: nat)
    requires popped0 == |done|
    requires Drain(done, raises, target) == Outcome(handled0, delivered0, failures0, false, [])
    modifies queue
    ensures var s := done + old(queue.items);
            && popped <= |s| && queue.items == s[popped..]
            && Drain(s[..popped], raises, target) == Outcome(handled, delivered, failures, stop, [])
            && (!stop ==> queue.items == [])
  {
    ghost var s := done + queue.items;
    assert s[..popped0] == done && s[popped0..] == queue.items;
    handled, delivered, failures, stop, popped := handled0, delivered0, failures0, false, popped0;
    while !queue.Empty()
      invariant popped <= |s|
      invariant queue.items == s[popped..]
      invariant Drain(s[..popped], raises, target) == Outcome(handled, delivered, failures, false, [])
      invariant !stop
      decreases |queue.items|
    {
      handled, delivered, failures, stop, popped :=
        Dispatch(queue, target, raises, s, popped, handled, delivered, failures);
      if stop {
        break;
      }
    }
  }

  /** Popping the head of `s[k..]` is one more `Drain` step over the first `k` records. */
  lemma DrainPop(s: seq<Record>, k: nat, raises: seq<bool>, target: LoggerObj)
    requires k < |s|
    ensures s[k..][0] == s[k] && s[k..][1..] == s[k + 1..]
    ensures Drain(s[..k + 1], raises, target) == Step(Drain(s[..k], raises, target), s[k], Fails(target, raises, k))
  {
    assert s[..k + 1] == s[..k] + [s[k]];
    DrainSnoc(s[..k], s[k], raises, target);
  }

  /** One pass of the inner loop: pop a record; on the sentinel set the stop flag, otherwise
      hand it to `handle` and count a failure instead of delivering it when that raises. */
  method Dispatch(queue: RecordQueue, target: LoggerObj, raises: seq<bool>, ghost s: seq<Record>,
                  popped0: nat, handled0: seq<Record>, delivered0: seq<Record>, failures0: nat)
    returns (handled: seq<Record>, delivered: seq<Record>, failures: nat, stop: bool, popped: nat)
    requires popped0 < |s| && queue.items == s[popped0..]
    requires Drain(s[..popped0], raises, target) == Outcome(handled0, delivered0, failures0, false, [])
    modifies queue
    ensures popped == popped0 + 1 && queue.items == s[popped..]
    ensures Drain(s[..popped], raises, target) == Outcome(handled, delivered, failures, stop, [])
  {
    handled, delivered, failures, stop, popped := handled0, delivered0, failures0, false, popped0;
    DrainPop(s, popped, raises, target);
    var r := queue.Get();
    var i := popped;
    popped := popped + 1;
    if IsSentinel(r) {
      stop := true;
      return;
    }
    handled := handled + [r];
    if Fails(target, raises, i) {
      failures := failures + 1;
    } else {
      delivered := delivered + [r];
    }
  }

  /** One wake of the listener: producers put `batch` on the queue while the listener sleeps,
      then it drains what is available. */
  method Wake(queue: RecordQueue, target: LoggerObj, raises: seq<bool>, batch: seq<Record>,
              ghost stream: seq<Record>, popped0: nat, handled0: seq<Record>, delivered0: seq<Record>,
              failures0: nat)
    returns (handled: seq<Record>, delivered: seq<Record>, failures: nat, stop: bool, popped: nat)
    requires popped0 <= |stream| && queue.items == stream[popped0..]
    requires Drain(stream[..popped0], raises, target) == Outcome(handled0, delivered0, failures0, false, [])
    modifies queue
    ensures var s := stream + batch;
            && popped <= |s| && queue.items == s[popped..]
            && Drain(s[..popped], raises, target) == Outcome(handled, delivered, failures, stop, [])
            && (!stop ==> queue.items == [])
  {
    Produce(queue, batch);
    assert stream[..popped0] + queue.items == stream + batch;
    handled, delivered, failures, stop, popped :=
      DrainAvailable(queue, target, raises, stream[..popped0], popped0, handled0, delivered0, failures0);
  }

  /** `listen`. The outer loop wakes up once per batch in `arrivals` (the records producers
      put on the queue while it slept) and drains what is available, until the stop flag is
      set. Whatever way the records are split into batches, the result is the drain of the
      whole stream. */
  method Listen(queue: RecordQueue, target: LoggerObj, arrivals: seq<seq<Record>>, raises: seq<bool>)
    returns (handled: seq<Record>, delivered: seq<Record>, failures: nat, stop: bool, woken: nat)
    modifies queue
    ensures woken <= |arrivals|
    ensures !stop ==> woken == |arrivals|
    ensures |arrivals| > 0 ==> woken > 0
    ensures |arrivals| > 0 ==>
      var o := Drain(old(queue.items) + Flatten(arrivals[..woken]), raises, target);
      && handled == o.handled && delivered == o.delivered && failures == o.failures
      && stop == o.stopped && queue.items == o.rest
    ensures |arrivals| == 0 ==>
      handled == [] && delivered == [] && failures == 0 && !stop && queue.items == old(queue.items)
  {
    ghost var initial := queue.items;
    handled, delivered, failures, stop, woken := [], [], 0, false, 0;
    var popped: nat := 0;
    ghost var stream := initial;
    assert stream[..0] == [];
    while !stop && woken < |arrivals|
      invariant woken <= |arrivals|
      invariant stream == initial + Flatten(arrivals[..woken])
      invariant popped <= |stream|
      invariant queue.items == stream[popped..]
      invariant Drain(stream[..popped], raises, target) == Outcome(handled, delivered, failures, stop, [])
      invariant woken > 0 && !stop ==> queue.items == []
      invariant woken == 0 ==> popped == 0 && !stop
      decreases |arrivals| - woken
    {
      var batch := arrivals[woken];
      handled, delivered, failures, stop, popped :=
        Wake(queue, target, raises, batch, stream, popped, handled, delivered, failures);
      FlattenStep(arrivals, woken);
      stream := stream + batch;
      woken := woken + 1;
    }
    if woken > 0 {
      DrainWhole(stream, popped, raises, target);
    }
  }

  /** What the listener popped, with what it left on the queue, is drained as a whole: a stop
      leaves the rest behind, and not stopping means nothing was left. */
  lemma DrainWhole(stream: seq<Record>, popped: nat, raises: seq<bool>, target: LoggerObj)
    requires popped <= |stream| && Drain(stream[..popped], raises, target).rest == []
    requires !Drain(stream[..popped], raises, target).stopped ==> stream[popped..] == []
    ensures Drain(stream, raises, target) == Drain(stream[..popped], raises, target).(rest := stream[popped..])
  {
    if Drain(stream[..popped], raises, target).stopped {
      assert stream == stream[..popped] + stream[popped..];
      DrainAfterStop(stream[..popped], stream[popped..], raises, target);
    } else {
      assert stream[..popped] == stream;
    }
  }
}
