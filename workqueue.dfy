/**
 * The rate-limited work queue of client-go, as the three watchers use it, and the
 * retry policy they share: forget a key after a successful sync, re-add it rate
 * limited after a failure while it has been requeued fewer than MaxNumRequeues
 * times, and forget it (dropping it) after that.
 *
 * The queue keeps client-go's three parts: `queue` (keys waiting, in order),
 * `dirty` (keys that need a sync) and `processing` (keys a worker holds). A key
 * added while a worker holds it is only marked dirty and goes back on the queue
 * when the worker calls Done, so the same key is never processed twice at once.
 * The rate limiter's delay is not modelled: AddRateLimited bumps the key's
 * requeue count and adds it at once.
 */
module WorkQueue {
  import opened Seqs
  import Wrappers

  /** The operator's retry limit (`MaxNumRequeues: 5` in its default options). */
  const MaxNumRequeues: nat := 5

  /** The whole state of one queue. */
  datatype QState = QState(
    queue: seq<string>,
    dirty: set<string>,
    processing: set<string>,
    requeues: map<string, nat>,
    shuttingDown: bool)

  /** client-go's own invariant: waiting keys are distinct and dirty, and a dirty key waits or is held. */
  predicate Valid(s: QState)
  {
    Distinct(s.queue) &&
    (forall x :: x in s.queue ==> x in s.dirty && x !in s.processing) &&
    (forall x :: x in s.dirty ==> x in s.queue || x in s.processing)
  }

  /** NumRequeues: how often the key was re-added rate limited since it was last forgotten. */
  function RequeuesOf(s: QState, x: string): nat
  {
    if x in s.requeues then s.requeues[x] else 0
  }

  /** Add: ignored while shutting down or when the key is already dirty; parked while a worker holds it. */
  function Added(s: QState, x: string): QState
  {
    if s.shuttingDown || x in s.dirty then s
    else if x in s.processing then s.(dirty := s.dirty + {x})
    else s.(dirty := s.dirty + {x}, queue := s.queue + [x])
  }

  /** Get on a non-empty queue: the first key leaves the queue and is held by the worker. */
  function Taken(s: QState): QState
    requires |s.queue| > 0
  {
    s.(queue := s.queue[1..], processing := s.processing + {s.queue[0]}, dirty := s.dirty - {s.queue[0]})
  }

  /** Done: the worker lets go of the key, which goes back on the queue if it was marked dirty meanwhile. */
  function Finished(s: QState, x: string): QState
  {
    var p := s.(processing := s.processing - {x});
    if x in s.dirty then p.(queue := p.queue + [x]) else p
  }

  /** Forget: clears the key's requeue count. */
  function Forgotten(s: QState, x: string): QState
  {
    s.(requeues := s.requeues - {x})
  }

  /** AddRateLimited: one more requeue for the key, then Add (the delay is not modelled). */
  function RateLimitedAdded(s: QState, x: string): QState
  {
    Added(s.(requeues := s.requeues[x := RequeuesOf(s, x) + 1]), x)
  }

  /** ShutDown */
  function ShutDownState(s: QState): QState
  {
    s.(shuttingDown := true)
  }

  lemma AddedValid(s: QState, x: string)
    requires Valid(s)
    ensures Valid(Added(s, x)) && Valid(RateLimitedAdded(s, x))
  {
    DistinctSnoc(s.queue, x);
    DistinctSnoc(s.queue, x);
  }

  lemma TakenValid(s: QState)
    requires Valid(s) && |s.queue| > 0
    ensures Valid(Taken(s))
  {
    var x := s.queue[0];
    assert s.queue == [x] + s.queue[1..];
    forall y | y in s.queue[1..]
      ensures y != x
    {
      var k :| 0 <= k < |s.queue[1..]| && s.queue[1..][k] == y;
      assert s.queue[k + 1] == y;
    }
  }

  lemma FinishedValid(s: QState, x: string)
    requires Valid(s) && x in s.processing
    ensures Valid(Finished(s, x))
  {
    DistinctSnoc(s.queue, x);
  }

  lemma ForgottenValid(s: QState, x: string)
    requires Valid(s)
    ensures Valid(Forgotten(s, x)) && RequeuesOf(Forgotten(s, x), x) == 0
    ensures forall y :: y != x ==> RequeuesOf(Forgotten(s, x), y) == RequeuesOf(s, y)
  {
  }

  /** A key is processed by at most one worker: a key a worker holds is not handed out again until Done. */
  lemma HeldKeyNotHandedOut(s: QState, x: string)
    requires Valid(s) && x in s.processing
    ensures Added(s, x).queue == s.queue
    ensures x !in s.queue
  {
  }

  // ----- the retry policy -----

  /** What a worker does with a key after one sync. */
  datatype Outcome = Synced | Retried | Dropped

  /** The decision: forget after success, retry while under the limit, drop at the limit. */
  function RetryOutcome(failed: bool, requeues: nat, max: nat): (o: Outcome)
    ensures o == Synced <==> !failed
    ensures o == Retried <==> failed && requeues < max
    ensures o == Dropped <==> failed && requeues >= max
  {
    if !failed then Synced else if requeues < max then Retried else Dropped
  }

  /** The queue after the decision for `key` is carried out. */
  function AfterSync(s: QState, key: string, failed: bool, max: nat): QState
  {
    match RetryOutcome(failed, RequeuesOf(s, key), max)
    case Retried => RateLimitedAdded(s, key)
    case _ => Forgotten(s, key)
  }

  /** One round of a worker: Get, sync (which failed or not), the decision, Done. */
  function Processed(s: QState, failed: bool, max: nat): QState
    requires |s.queue| > 0
  {
    var key := s.queue[0];
    Finished(AfterSync(Taken(s), key, failed, max), key)
  }

  lemma ProcessedValid(s: QState, failed: bool, max: nat)
    requires Valid(s) && |s.queue| > 0
    ensures Valid(Processed(s, failed, max))
  {
    var key := s.queue[0];
    TakenValid(s);
    var t := Taken(s);
    AddedValid(t, key);
    ForgottenValid(t, key);
    FinishedValid(AfterSync(t, key, failed, max), key);
  }

  /** A successful sync clears the key's count and does not requeue it. */
  lemma SuccessForgets(s: QState, max: nat)
    requires Valid(s) && |s.queue| > 0
    ensures RequeuesOf(Processed(s, false, max), s.queue[0]) == 0
    ensures Processed(s, false, max).queue == s.queue[1..]
  {
    TakenValid(s);
  }

  /** A failed sync under the limit puts the key back at the end of the queue with one more requeue. */
  lemma FailureRetries(s: QState, max: nat)
    requires Valid(s) && |s.queue| > 0 && !s.shuttingDown
    requires RequeuesOf(s, s.queue[0]) < max
    ensures RequeuesOf(Processed(s, true, max), s.queue[0]) == RequeuesOf(s, s.queue[0]) + 1
    ensures Processed(s, true, max).queue == s.queue[1..] + [s.queue[0]]
  {
    TakenValid(s);
  }

  /** A failed sync at the limit forgets the key and drops it from the queue. */
  lemma FailureAtLimitDrops(s: QState, max: nat)
    requires Valid(s) && |s.queue| > 0
    requires RequeuesOf(s, s.queue[0]) >= max
    ensures RequeuesOf(Processed(s, true, max), s.queue[0]) == 0
    ensures Processed(s, true, max).queue == s.queue[1..]
  {
    TakenValid(s);
  }

  /** `n` rounds of a worker whose sync always fails (stopping once the queue is empty). */
  function RunFailing(s: QState, n: nat, max: nat): QState
    decreases n
  {
    if n == 0 || |s.queue| == 0 then s else RunFailing(Processed(s, true, max), n - 1, max)
  }

  lemma {:induction false} FailingRounds(s: QState, key: string, n: nat, max: nat)
    requires Valid(s) && s.queue == [key] && !s.shuttingDown
    requires RequeuesOf(s, key) + n <= max
    ensures Valid(RunFailing(s, n, max)) && !RunFailing(s, n, max).shuttingDown
    ensures RunFailing(s, n, max).queue == [key]
    ensures RequeuesOf(RunFailing(s, n, max), key) == RequeuesOf(s, key) + n
    decreases n
  {
    if n > 0 {
      FailureRetries(s, max);
      ProcessedValid(s, true, max);
      FailingRounds(Processed(s, true, max), key, n - 1, max);
    }
  }

  lemma {:induction false} RunFailingStopped(s: QState, n: nat, max: nat)
    requires |s.queue| == 0
    ensures RunFailing(s, n, max) == s
  {
  }

  /**
   * A key whose sync always fails is synced MaxNumRequeues + 1 times: the first
   * attempt and `max` retries. After them it is off the queue, its count is
   * cleared, and no further round touches it.
   */
  lemma AlwaysFailingKey(s: QState, key: string, max: nat, extra: nat)
    requires Valid(s) && s.queue == [key] && !s.shuttingDown && RequeuesOf(s, key) == 0
    ensures RunFailing(s, max, max).queue == [key]
    ensures RequeuesOf(RunFailing(s, max, max), key) == max
    ensures RunFailing(s, max + 1, max).queue == []
    ensures RequeuesOf(RunFailing(s, max + 1, max), key) == 0
    ensures RunFailing(s, max + 1 + extra, max) == RunFailing(s, max + 1, max)
  {
    FailingRounds(s, key, max, max);
    var t := RunFailing(s, max, max);
    FailureAtLimitDrops(t, max);
    assert [key][1..] == [];
    RunFailingSplit(s, max, 1, max);
    RunFailingSplit(s, max + 1, extra, max);
    RunFailingStopped(RunFailing(s, max + 1, max), extra, max);
  }

  lemma RunFailingUnfold(s: QState, n: nat, max: nat)
    requires n > 0 && |s.queue| > 0
    ensures RunFailing(s, n, max) == RunFailing(Processed(s, true, max), n - 1, max)
  {
  }

  /** `a` rounds and then `b` more are `a + b` rounds. */
  lemma {:induction false} RunFailingSplit(s: QState, a: nat, b: nat, max: nat)
    ensures RunFailing(s, a + b, max) == RunFailing(RunFailing(s, a, max), b, max)
    decreases a
  {
    if a > 0 && |s.queue| > 0 {
      RunFailingUnfold(s, a + b, max);
      RunFailingUnfold(s, a, max);
      assert a + b - 1 == (a - 1) + b;
      RunFailingSplit(Processed(s, true, max), a - 1, b, max);
    } else if a > 0 {
      RunFailingStopped(s, b, max);
      RunFailingStopped(s, a + b, max);
    }
  }

  /** client-go's rate-limited queue, with the state above in its fields. */
  class RateLimitingQueue {
    var queue: seq<string>
    var dirty: set<string>
    var processing: set<string>
    var requeues: map<string, nat>
    var shuttingDown: bool

    function State(): QState
      reads this
    {
      QState(queue, dirty, processing, requeues, shuttingDown)
    }

    constructor ()
      ensures State() == QState([], {}, {}, map[], false)
      ensures Valid(State())
    {
      queue, dirty, processing, requeues, shuttingDown := [], {}, {}, map[], false;
    }

    method Add(x: string)
      modifies this
      ensures State() == Added(old(State()), x)
    {
      if shuttingDown || x in dirty {
        return;
      }
      dirty := dirty + {x};
      if x in processing {
        return;
      }
      queue := queue + [x];
    }

    /**
     * Get: the first waiting key, or `quit` once the queue is shut down and empty.
     * On an empty queue that is not shut down the Go call blocks until another
     * goroutine adds a key; a sequential model has no such goroutine.
     */
    method Get() returns (x: string, quit: bool)
      requires |queue| > 0 || shuttingDown
      modifies this
      ensures quit <==> |old(queue)| == 0
      ensures quit ==> State() == old(State())
      ensures !quit ==> x == old(queue)[0] && State() == Taken(old(State()))
    {
      if |queue| == 0 {
        return "", true;
      }
      x := queue[0];
      quit := false;
      queue := queue[1..];
      processing := processing + {x};
      dirty := dirty - {x};
    }

    method Done(x: string)
      modifies this
      ensures State() == Finished(old(State()), x)
    {
      processing := processing - {x};
      if x in dirty {
        queue := queue + [x];
      }
    }

    method Forget(x: string)
      modifies this
      ensures State() == Forgotten(old(State()), x)
    {
      requeues := requeues - {x};
    }

    function NumRequeues(x: string): (n: nat)
      reads this
      ensures n == RequeuesOf(State(), x)
    {
      if x in requeues then requeues[x] else 0
    }

    method AddRateLimited(x: string)
      modifies this
      ensures State() == RateLimitedAdded(old(State()), x)
    {
      requeues := requeues[x := NumRequeues(x) + 1];
      Add(x);
    }

    method ShutDown()
      modifies this
      ensures State() == ShutDownState(old(State()))
    {
      shuttingDown := true;
    }
  }

  /** The retry policy each watcher applies to a key after syncing it. */
  method FinishSync(q: RateLimitingQueue, key: string, failed: bool, max: nat) returns (o: Outcome)
    modifies q
    ensures o == RetryOutcome(failed, RequeuesOf(old(q.State()), key), max)
    ensures q.State() == AfterSync(old(q.State()), key, failed, max)
  {
    if !failed {
      q.Forget(key);
      return Synced;
    }
    if q.NumRequeues(key) < max {
      q.AddRateLimited(key);
      return Retried;
    }
    q.Forget(key);
    return Dropped;
  }

  /** Adds the key, if there is one. */
  method AddIfAny(q: RateLimitingQueue, key: Wrappers.Option<string>)
    modifies q
    ensures q.State() == if key.Some? then Added(old(q.State()), key.value) else old(q.State())
  {
    if key.Some? {
      q.Add(key.value);
    }
  }
}
