/** The pull-based worker pool: its builder, its admission loop and the
    bookkeeping of the active-worker count. Each public method of the pool runs
    under one lock, so each is modelled as one atomic step. */
module AmbitiousPool {

  import opened Wrappers
  import opened TaskSuppliers
  import opened PoolLimitationStrategies

  /** The thread factory handed through to the executor. Only its identity
      matters here. */
  datatype ThreadFactory = DefaultThreadFactory | CustomThreadFactory(id: nat)

  /** Outcome of the admission loop: every task submitted, in order, and the
      supplier's state afterwards. */
  datatype Drained = Drained(pulled: seq<Task>, rest: TaskSupplier)

  /** The admission loop, one call per round: `submitted` is what earlier
      rounds of this call have submitted and `count` the current active count.
      A round stops when the pool is shut down, when the strategy denies at the
      current count, or when the supplier has no task; otherwise it submits the
      task, counts it and goes round again. */
  function AdmissionLoop(shutdown: bool, strategy: PoolLimitationStrategy, count: int,
                         s: TaskSupplier, submitted: seq<Task>): Drained
    decreases |Pending(s)|
  {
    if shutdown || !strategy.MayCreateNewThread(count) then
      Drained(submitted, s)
    else
      var p := GetTask(s);
      match p.task
      case None => Drained(submitted, p.next)
      case Some(t) => AdmissionLoop(shutdown, strategy, count + 1, p.next, submitted + [t])
  }

  /** What earlier rounds submitted is carried through unchanged: a call
      started with `submitted` ends with `submitted` followed by exactly what
      a fresh call would pull, and with the same supplier state. */
  lemma {:induction false} AdmissionLoopCarries(shutdown: bool, strategy: PoolLimitationStrategy,
                                                count: int, s: TaskSupplier, submitted: seq<Task>)
    ensures var d := AdmissionLoop(shutdown, strategy, count, s, []);
      AdmissionLoop(shutdown, strategy, count, s, submitted) == Drained(submitted + d.pulled, d.rest)
    decreases |Pending(s)|
  {
    var d := AdmissionLoop(shutdown, strategy, count, s, []);
    if !shutdown && strategy.MayCreateNewThread(count) {
      var p := GetTask(s);
      if p.task.Some? {
        var t := p.task.value;
        var e := AdmissionLoop(shutdown, strategy, count + 1, p.next, []);
        AdmissionLoopCarries(shutdown, strategy, count + 1, p.next, submitted + [t]);
        AdmissionLoopCarries(shutdown, strategy, count + 1, p.next, [t]);
        assert [] + [t] == [t];
        assert d == Drained([t] + e.pulled, e.rest);
        assert (submitted + [t]) + e.pulled == submitted + ([t] + e.pulled);
      } else {
        assert d == Drained([], p.next);
        assert submitted + [] == submitted;
      }
    } else {
      assert d == Drained([], s);
      assert submitted + [] == submitted;
    }
  }

  /** One admitted round that is handed task `t`: `t` is submitted first and
      the rest of the call proceeds from the next count. */
  lemma AdmissionLoopUnfold(shutdown: bool, strategy: PoolLimitationStrategy, count: int, s: TaskSupplier)
    requires !shutdown && strategy.MayCreateNewThread(count) && GetTask(s).task.Some?
    ensures var e := AdmissionLoop(shutdown, strategy, count + 1, GetTask(s).next, []);
      AdmissionLoop(shutdown, strategy, count, s, []) == Drained([GetTask(s).task.value] + e.pulled, e.rest)
  {
    var p := GetTask(s);
    assert AdmissionLoop(shutdown, strategy, count, s, []) == AdmissionLoop(shutdown, strategy, count + 1, p.next, [] + [p.task.value]);
    assert [] + [p.task.value] == [p.task.value];
    AdmissionLoopCarries(shutdown, strategy, count + 1, p.next, [p.task.value]);
  }

  /** Once shut down, the loop pulls nothing and leaves the supplier alone. */
  lemma ShutdownAdmitsNothing(strategy: PoolLimitationStrategy, count: int, s: TaskSupplier)
    ensures AdmissionLoop(true, strategy, count, s, []) == Drained([], s)
  {
  }

  /** The tasks one call submits are the front of the supplier's sequence,
      taken in order, and the supplier keeps exactly the rest. */
  lemma {:induction false} PulledIsPrefix(shutdown: bool, strategy: PoolLimitationStrategy,
                                          count: int, s: TaskSupplier)
    ensures var d := AdmissionLoop(shutdown, strategy, count, s, []);
      Pending(s) == d.pulled + Pending(d.rest)
    decreases |Pending(s)|
  {
    if !shutdown && strategy.MayCreateNewThread(count) {
      var p := GetTask(s);
      if p.task.Some? {
        AdmissionLoopUnfold(shutdown, strategy, count, s);
        PulledIsPrefix(shutdown, strategy, count + 1, p.next);
        var e := AdmissionLoop(shutdown, strategy, count + 1, p.next, []);
        assert [p.task.value] + (e.pulled + Pending(e.rest)) == ([p.task.value] + e.pulled) + Pending(e.rest);
      }
    }
  }

  /** Every task one call pulls was admitted: the pool was not shut down, and
      the strategy allowed it at the count current when it was pulled, which
      runs from `count` for the first task up to `count + |pulled| - 1` for the
      last. */
  lemma {:induction false} EachPulledWasAdmitted(shutdown: bool, strategy: PoolLimitationStrategy,
                                                 count: int, s: TaskSupplier)
    ensures var d := AdmissionLoop(shutdown, strategy, count, s, []);
      && (|d.pulled| > 0 ==> !shutdown)
      && forall c :: count <= c < count + |d.pulled| ==> strategy.MayCreateNewThread(c)
    decreases |Pending(s)|
  {
    if !shutdown && strategy.MayCreateNewThread(count) {
      var p := GetTask(s);
      if p.task.Some? {
        AdmissionLoopUnfold(shutdown, strategy, count, s);
        EachPulledWasAdmitted(shutdown, strategy, count + 1, p.next);
      }
    }
  }

  /** One call stops only for a reason: the pool is shut down, the strategy
      denies at the final count, or the supplier has run dry. */
  lemma {:induction false} StopsForAReason(shutdown: bool, strategy: PoolLimitationStrategy,
                                           count: int, s: TaskSupplier)
    ensures var d := AdmissionLoop(shutdown, strategy, count, s, []);
      shutdown || !strategy.MayCreateNewThread(count + |d.pulled|) || Pending(d.rest) == []
    decreases |Pending(s)|
  {
    if !shutdown && strategy.MayCreateNewThread(count) {
      var p := GetTask(s);
      if p.task.Some? {
        AdmissionLoopUnfold(shutdown, strategy, count, s);
        StopsForAReason(shutdown, strategy, count + 1, p.next);
      }
    }
  }

  /** Under a ceiling `m`, starting at or below it, one call ends at or below
      it, and ends exactly at it unless the supplier ran dry or the pool is
      shut down. */
  lemma MaxPoolSizeBound(shutdown: bool, m: nat, count: int, s: TaskSupplier)
    requires count <= m
    ensures var d := AdmissionLoop(shutdown, MaxPoolSize(m), count, s, []);
      && count + |d.pulled| <= m
      && (shutdown || Pending(d.rest) == [] || count + |d.pulled| == m)
  {
    var d := AdmissionLoop(shutdown, MaxPoolSize(m), count, s, []);
    EachPulledWasAdmitted(shutdown, MaxPoolSize(m), count, s);
    StopsForAReason(shutdown, MaxPoolSize(m), count, s);
    if |d.pulled| > 0 {
      assert MaxPoolSize(m).MayCreateNewThread(count + |d.pulled| - 1);
    }
  }

  /** With no limit and no shutdown, one call takes every task the supplier
      holds. */
  lemma UnlimitedDrainsSupplier(count: int, s: TaskSupplier)
    ensures var d := AdmissionLoop(false, Unlimited, count, s, []);
      d.pulled == Pending(s) && Pending(d.rest) == []
  {
    PulledIsPrefix(false, Unlimited, count, s);
    StopsForAReason(false, Unlimited, count, s);
  }

  /** With the always-empty supplier one call is a no-op. */
  lemma NoTasksAdmitsNothing(shutdown: bool, strategy: PoolLimitationStrategy, count: int)
    ensures AdmissionLoop(shutdown, strategy, count, NoTasks(), []) == Drained([], NoTasks())
  {
  }

  /** The active count stays within the strategy's ceiling, if it has one. */
  predicate WithinCeiling(strategy: PoolLimitationStrategy, count: int)
  {
    match strategy
    case Unlimited => true
    case MaxPoolSize(m) => count <= m
  }

  /** What one call of the loop, started with nothing submitted, adds up
      to: the tasks taken are the front of the supplier's sequence; nothing is
      taken once shut down; the loop stops only for a reason; and a ceiling
      respected at the start is respected at the end. */
  lemma AdmissionLoopOutcome(shutdown: bool, strategy: PoolLimitationStrategy, count: int, s: TaskSupplier,
                             d: Drained)
    requires d == AdmissionLoop(shutdown, strategy, count, s, [])
    ensures Pending(s) == d.pulled + Pending(d.rest)
    ensures shutdown ==> d == Drained([], s)
    ensures shutdown || !strategy.MayCreateNewThread(count + |d.pulled|) || Pending(d.rest) == []
    ensures WithinCeiling(strategy, count) ==> WithinCeiling(strategy, count + |d.pulled|)
  {
    PulledIsPrefix(shutdown, strategy, count, s);
    StopsForAReason(shutdown, strategy, count, s);
    if strategy.MaxPoolSize? && count <= strategy.maxThreadCount {
      MaxPoolSizeBound(shutdown, strategy.maxThreadCount, count, s);
    }
  }

  /** A running pool. The executor is reduced to what the pool observes of it:
      the tasks submitted to it and not yet completed. */
  class Impl {
    /** The supplier's state: what it will still hand out. */
    var taskSupplier: TaskSupplier
    const limitationStrategy: PoolLimitationStrategy
    /** Executor configuration, passed through unchanged. */
    const threadFactory: ThreadFactory
    const corePoolSize: nat

    var shutdown: bool
    var activeThreadCount: int

    /** Tasks submitted to the executor and not yet completed. */
    ghost var inFlight: multiset<Task>

    /** The active count is the number of tasks in flight, and a ceiling, if
        any, is respected. */
    ghost predicate Valid()
      reads this
    {
      && activeThreadCount == |inFlight|
      && WithinCeiling(limitationStrategy, activeThreadCount)
    }

    constructor(taskSupplier: TaskSupplier, limitationStrategy: PoolLimitationStrategy,
                threadFactory: ThreadFactory, corePoolSize: nat)
      ensures Valid()
      ensures this.taskSupplier == taskSupplier && this.limitationStrategy == limitationStrategy
      ensures this.threadFactory == threadFactory && this.corePoolSize == corePoolSize
      ensures activeThreadCount == 0 && !shutdown
      ensures inFlight == multiset{}
    {
      this.taskSupplier := taskSupplier;
      this.limitationStrategy := limitationStrategy;
      this.threadFactory := threadFactory;
      this.corePoolSize := corePoolSize;
      shutdown := false;
      activeThreadCount := 0;
      inFlight := multiset{};
    }

    /** The completion hook: the executor reports that task `r`, which it
        was running, has finished (normally or not). */
    method Complete(r: Task)
      requires Valid()
      requires r in inFlight
      modifies this`activeThreadCount, this`inFlight
      ensures Valid()
      ensures activeThreadCount == old(activeThreadCount) - 1
      ensures inFlight == old(inFlight) - multiset{r}
    {
      inFlight := inFlight - multiset{r};
      activeThreadCount := activeThreadCount - 1;
    }

    /** The admission loop: while not shut down and the strategy admits at the
        current count, pull one task; submit it and count it, or stop when the
        supplier has none. */
    method LookForWork()
      requires Valid()
      modifies this`taskSupplier, this`activeThreadCount, this`inFlight
      ensures Valid()
      ensures var d := AdmissionLoop(shutdown, limitationStrategy, old(activeThreadCount), old(taskSupplier), []);
        && activeThreadCount == old(activeThreadCount) + |d.pulled|
        && taskSupplier == d.rest
        && inFlight == old(inFlight) + multiset(d.pulled)
        && Pending(old(taskSupplier)) == d.pulled + Pending(taskSupplier)
      ensures shutdown ==> activeThreadCount == old(activeThreadCount) && taskSupplier == old(taskSupplier)
      ensures shutdown || !limitationStrategy.MayCreateNewThread(activeThreadCount) || Pending(taskSupplier) == []
    {
      ghost var goal := AdmissionLoop(shutdown, limitationStrategy, activeThreadCount, taskSupplier, []);
      AdmissionLoopOutcome(shutdown, limitationStrategy, activeThreadCount, taskSupplier, goal);
      // The loop works on local copies of the count and the supplier, written
      // back when it ends; nothing else observes them while the lock is held.
      var count, supplier := activeThreadCount, taskSupplier;
      // The tasks handed to the executor by this call, in order. The ghost
      // record of work in flight takes them in when the call returns.
      ghost var pulled: seq<Task> := [];
      var loop := true;
      while loop
        invariant count == old(activeThreadCount) + |pulled|
        invariant loop ==> goal == AdmissionLoop(shutdown, limitationStrategy, count, supplier, pulled)
        invariant !loop ==> goal == Drained(pulled, supplier)
        decreases |Pending(supplier)|, loop
      {
        loop := false;
        if !shutdown && limitationStrategy.MayCreateNewThread(count) {
          var p := GetTask(supplier);
          supplier := p.next;
          if p.task.Some? {
            pulled := pulled + [p.task.value];
            count := count + 1;
            loop := true;
          }
        }
      }
      activeThreadCount, taskSupplier := count, supplier;
      inFlight := inFlight + multiset(pulled);
    }

    /** The active count: the number of tasks in flight, within the ceiling. */
    method ActiveThreadCount() returns (n: int)
      requires Valid()
      ensures n == activeThreadCount && n == |inFlight|
      ensures limitationStrategy.MaxPoolSize? ==> n <= limitationStrategy.maxThreadCount
    {
      n := activeThreadCount;
    }

    /** Orderly shutdown: no new task is pulled; tasks in flight run on. */
    method Shutdown()
      requires Valid()
      modifies this`shutdown
      ensures Valid() && shutdown
    {
      shutdown := true;
    }

    /** Abrupt shutdown: as `Shutdown` as far as the pool's state goes. */
    method ShutdownNow()
      requires Valid()
      modifies this`shutdown
      ensures Valid() && shutdown
    {
      shutdown := true;
    }
  }

  /** Collects a pool's configuration; unset options keep their defaults. */
  class AmbitiousPoolBuilder {
    var taskSupplier: TaskSupplier
    var limitationStrategy: PoolLimitationStrategy
    var threadFactory: ThreadFactory
    var corePoolSize: nat

    /** The defaults: no tasks, no limit, the platform's thread factory and no
        reserved threads. */
    constructor()
      ensures taskSupplier == NoTasks() && limitationStrategy == UnlimitedStrategy()
      ensures threadFactory == DefaultThreadFactory && corePoolSize == 0
    {
      taskSupplier := NoTasks();
      limitationStrategy := UnlimitedStrategy();
      threadFactory := DefaultThreadFactory;
      corePoolSize := 0;
    }

    /** Sets the supplier; an absent one is refused and nothing changes. */
    method WithTaskSupplier(taskSupplier: Option<TaskSupplier>)
      returns (r: Result<AmbitiousPoolBuilder, Exception>)
      modifies this`taskSupplier
      ensures taskSupplier.None? ==> r == Failure(NullPointerException) && this.taskSupplier == old(this.taskSupplier)
      ensures taskSupplier.Some? ==> r == Success(this) && this.taskSupplier == taskSupplier.value
      ensures limitationStrategy == old(limitationStrategy) && threadFactory == old(threadFactory)
      ensures corePoolSize == old(corePoolSize)
    {
      if taskSupplier.None? {
        return Failure(NullPointerException);
      }
      this.taskSupplier := taskSupplier.value;
      return Success(this);
    }

    /** Sets the strategy; an absent one is refused and nothing changes. */
    method WithLimitationStrategy(limitationStrategy: Option<PoolLimitationStrategy>)
      returns (r: Result<AmbitiousPoolBuilder, Exception>)
      modifies this`limitationStrategy
      ensures limitationStrategy.None? ==> r == Failure(NullPointerException) && this.limitationStrategy == old(this.limitationStrategy)
      ensures limitationStrategy.Some? ==> r == Success(this) && this.limitationStrategy == limitationStrategy.value
      ensures taskSupplier == old(taskSupplier) && threadFactory == old(threadFactory)
      ensures corePoolSize == old(corePoolSize)
    {
      if limitationStrategy.None? {
        return Failure(NullPointerException);
      }
      this.limitationStrategy := limitationStrategy.value;
      return Success(this);
    }

    /** Sets the thread factory; an absent one is refused and nothing changes. */
    method WithThreadFactory(threadFactory: Option<ThreadFactory>)
      returns (r: Result<AmbitiousPoolBuilder, Exception>)
      modifies this`threadFactory
      ensures threadFactory.None? ==> r == Failure(NullPointerException) && this.threadFactory == old(this.threadFactory)
      ensures threadFactory.Some? ==> r == Success(this) && this.threadFactory == threadFactory.value
      ensures taskSupplier == old(taskSupplier) && limitationStrategy == old(limitationStrategy)
      ensures corePoolSize == old(corePoolSize)
    {
      if threadFactory.None? {
        return Failure(NullPointerException);
      }
      this.threadFactory := threadFactory.value;
      return Success(this);
    }

    /** Sets the number of reserved threads; a negative one is refused and
        nothing changes. */
    method WithCorePoolSize(corePoolSize: int)
      returns (r: Result<AmbitiousPoolBuilder, Exception>)
      modifies this`corePoolSize
      ensures corePoolSize < 0 ==>
        r == Failure(IllegalArgumentException("Core pool size cannot be negative."))
        && this.corePoolSize == old(this.corePoolSize)
      ensures corePoolSize >= 0 ==> r == Success(this) && this.corePoolSize == corePoolSize
      ensures taskSupplier == old(taskSupplier) && limitationStrategy == old(limitationStrategy)
      ensures threadFactory == old(threadFactory)
    {
      if corePoolSize < 0 {
        return Failure(IllegalArgumentException("Core pool size cannot be negative."));
      }
      this.corePoolSize := corePoolSize;
      return Success(this);
    }

    /** A new pool with this configuration, idle and running. */
    method Build() returns (pool: Impl)
      ensures fresh(pool) && pool.Valid()
      ensures pool.taskSupplier == taskSupplier && pool.limitationStrategy == limitationStrategy
      ensures pool.threadFactory == threadFactory && pool.corePoolSize == corePoolSize
      ensures pool.activeThreadCount == 0 && !pool.shutdown && pool.inFlight == multiset{}
    {
      pool := new Impl(taskSupplier, limitationStrategy, threadFactory, corePoolSize);
    }
  }
}
