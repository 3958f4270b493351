# ambitious-pool, modelled in Dafny

ambitious-pool is a worker pool that pulls work instead of having it pushed.
The user supplies a task supplier, which hands out the next task or nothing,
and a limitation strategy, which decides from the pool's active-thread count
whether one more task may start. Each call of `lookForWork` repeats one round
until something stops it. A round checks that the pool is not shut down and
that the strategy admits at the current count. It then asks the supplier for
a task, hands that task to the executor and increments the count. When the
executor finishes a task, its completion hook decrements the count. A builder
collects the configuration and checks it.

The model has four modules:

- `Wrappers` (`wrappers.dfy`) models Java's `null` as `Option` and a thrown
  exception as the `Failure` side of `Result`. It names the two exceptions the
  core throws.
- `TaskSuppliers` (`task_suppliers.dfy`) models a supplier as a value holding
  the finite sequence of tasks it will still hand out. `GetTask` returns the
  task, if any, together with the supplier's next state. The `Nil` supplier
  never has work.
- `PoolLimitationStrategies` (`pool_limitation_strategies.dfy`) covers the two
  strategies and their factories. A strategy reads only the active count, so
  it is a pure predicate of that count.
- `AmbitiousPool` (`ambitious_pool.dfy`) has three parts:
  - the builder, a class whose setters update its fields;
  - the pool `Impl`, a class with the supplier state, the shutdown flag and
    the active count as fields, and a ghost multiset of the tasks in flight;
  - the admission loop's specification `AdmissionLoop`, with lemmas about it.

  `Impl.LookForWork` runs the source's `while (loop)` loop. It is proved equal
  to `AdmissionLoop`, and the lemmas then give the loop's properties. The pool
  invariant `Impl.Valid` says two things:
  - the active count equals the number of tasks in flight;
  - under `maxPoolSize(m)` the count never exceeds `m`.

## Model

| member | source | states |
|---|---|---|
| TaskSuppliers.GetTask | src/main/java/org/codeswarm/ambitiouspool/TaskSupplier.java:5-8 | The result is "no task" exactly when the supplier holds none, and then the supplier is left as it was. Otherwise the task handed out is the front of the supplier's sequence and the supplier keeps the rest. |
| TaskSuppliers.NoTasks | src/main/java/org/codeswarm/ambitiouspool/TaskSuppliers.java:7-20 | The shared `Nil` supplier holds no work. Asking it for a task gives none and leaves it unchanged, so it is stateless. |
| PoolLimitationStrategies.PoolLimitationStrategy.MayCreateNewThread | src/main/java/org/codeswarm/ambitiouspool/PoolLimitationStrategies.java:24-42 | The admission test of each strategy (`Unlimited.mayCreateNewThread` at lines 24-27, `MaxPoolSize.mayCreateNewThread` at lines 39-42). `Unlimited` admits at every active count, and `MaxPoolSize(m)` admits at count `c` exactly when `c < m`. It reads only the count and changes nothing. The facts are stated in the contracts of `UnlimitedStrategy` and `MaxPoolSizeStrategy` and in the two lemmas below. |
| PoolLimitationStrategies.UnlimitedStrategy | src/main/java/org/codeswarm/ambitiouspool/PoolLimitationStrategies.java:7-27 | The unlimited strategy admits at every active count. |
| PoolLimitationStrategies.MaxPoolSizeStrategy | src/main/java/org/codeswarm/ambitiouspool/PoolLimitationStrategies.java:11-42 | Fails with IllegalArgumentException("Max thread count cannot be negative.") exactly when the ceiling is negative. Otherwise the strategy it returns admits at count `c` if and only if `c` is below the ceiling. |
| PoolLimitationStrategies.MaxPoolSizeZeroNeverAdmits | src/main/java/org/codeswarm/ambitiouspool/PoolLimitationStrategies.java:40-42 | A ceiling of zero admits no task at any non-negative count. |
| PoolLimitationStrategies.AdmissionAntiMonotone | src/main/java/org/codeswarm/ambitiouspool/PoolLimitationStrategies.java:20-42 | For either strategy, a denial at some count is also a denial at every larger count. |
| AmbitiousPool.AdmissionLoop | src/main/java/org/codeswarm/ambitiouspool/AmbitiousPoolBuilder.java:88-99 | The `while (loop)` loop of `lookForWork`, one round per recursive call. It gives the tasks submitted and the supplier's final state. Its properties are `PulledIsPrefix` (the tasks pulled are the front of the supplier's sequence, in order), `EachPulledWasAdmitted` (each was admitted by the strategy, never after shutdown) and `StopsForAReason` (it stops only on shutdown, a denial at the final count, or an empty supplier). `Impl.LookForWork` is proved to end in the state it gives. |
| AmbitiousPool.AdmissionLoopUnfold | src/main/java/org/codeswarm/ambitiouspool/AmbitiousPoolBuilder.java:91-96 | An admitted round that receives a task submits it first, and the call continues from the next count with the supplier's next state. |
| AmbitiousPool.ShutdownAdmitsNothing | src/main/java/org/codeswarm/ambitiouspool/AmbitiousPoolBuilder.java:91 | Once the pool is shut down, a call pulls no task and leaves the supplier untouched. |
| AmbitiousPool.PulledIsPrefix | src/main/java/org/codeswarm/ambitiouspool/AmbitiousPoolBuilder.java:88-99 | The tasks one call submits are the front of the supplier's sequence, in order, and the supplier keeps exactly the rest. |
| AmbitiousPool.EachPulledWasAdmitted | src/main/java/org/codeswarm/ambitiouspool/AmbitiousPoolBuilder.java:91-95 | Every submitted task was admitted. The pool was not shut down, and the strategy admitted at each count from the starting count up to one below the final count. |
| AmbitiousPool.StopsForAReason | src/main/java/org/codeswarm/ambitiouspool/AmbitiousPoolBuilder.java:88-99 | A call stops only for one of three reasons: the pool is shut down, the strategy denies at the final count, or the supplier has run dry. |
| AmbitiousPool.MaxPoolSizeBound | src/main/java/org/codeswarm/ambitiouspool/AmbitiousPoolBuilder.java:88-99 | Under `maxPoolSize(m)`, starting at or below `m`, a call ends with a count of at most `m`. The count is exactly `m` unless the supplier ran dry or the pool is shut down. |
| AmbitiousPool.UnlimitedDrainsSupplier | src/main/java/org/codeswarm/ambitiouspool/AmbitiousPoolBuilder.java:88-99 | With the unlimited strategy and no shutdown, a call submits every task the supplier holds and leaves it empty. |
| AmbitiousPool.NoTasksAdmitsNothing | src/main/java/org/codeswarm/ambitiouspool/AmbitiousPoolBuilder.java:92-93 | With the no-tasks supplier, a call is a no-op. |
| AmbitiousPool.AdmissionLoopOutcome | src/main/java/org/codeswarm/ambitiouspool/AmbitiousPoolBuilder.java:88-99 | One call's outcome: the prefix property, nothing pulled after shutdown, the stop reason, and a ceiling that holds at the start of the call still holds at the end. |
| AmbitiousPool.Impl.constructor | src/main/java/org/codeswarm/ambitiouspool/AmbitiousPoolBuilder.java:63-82 | A fresh pool holds the given configuration and is valid. Its count is 0, it is not shut down and no task is in flight. |
| AmbitiousPool.Impl.Complete | src/main/java/org/codeswarm/ambitiouspool/AmbitiousPoolBuilder.java:76-79 | The completion hook removes the finished task from those in flight and decrements the count by exactly one. The invariant that the count equals the number in flight is preserved. |
| AmbitiousPool.Impl.LookForWork | src/main/java/org/codeswarm/ambitiouspool/AmbitiousPoolBuilder.java:85-103 | The loop ends in the state `AdmissionLoop` prescribes. The count grows by exactly the number of tasks pulled, and those tasks join the ones in flight and are a prefix of the supplier's sequence. After shutdown nothing changes. The loop stops only for a reason, and the pool invariant, ceiling included, is preserved. |
| AmbitiousPool.Impl.ActiveThreadCount | src/main/java/org/codeswarm/ambitiouspool/AmbitiousPoolBuilder.java:105-108 | Returns the active count, which equals the number of tasks in flight and is within the ceiling, if there is one. |
| AmbitiousPool.Impl.Shutdown | src/main/java/org/codeswarm/ambitiouspool/AmbitiousPoolBuilder.java:111-119 | Sets the shutdown flag and changes nothing else, so the count is unchanged and a second call changes nothing. |
| AmbitiousPool.Impl.ShutdownNow | src/main/java/org/codeswarm/ambitiouspool/AmbitiousPoolBuilder.java:122-130 | Same as `Shutdown` for the pool's state: sets the flag only and is idempotent. |
| AmbitiousPool.AmbitiousPoolBuilder.constructor | src/main/java/org/codeswarm/ambitiouspool/AmbitiousPoolBuilder.java:13-16 | The defaults are the no-tasks supplier, the unlimited strategy, the platform's default thread factory and a core pool size of 0. |
| AmbitiousPool.AmbitiousPoolBuilder.WithTaskSupplier | src/main/java/org/codeswarm/ambitiouspool/AmbitiousPoolBuilder.java:18-24 | An absent supplier gives NullPointerException and changes nothing. Otherwise it sets the supplier, returns the builder itself and leaves the other fields alone. |
| AmbitiousPool.AmbitiousPoolBuilder.WithLimitationStrategy | src/main/java/org/codeswarm/ambitiouspool/AmbitiousPoolBuilder.java:26-32 | An absent strategy gives NullPointerException and changes nothing. Otherwise it sets the strategy, returns the builder itself and leaves the other fields alone. |
| AmbitiousPool.AmbitiousPoolBuilder.WithThreadFactory | src/main/java/org/codeswarm/ambitiouspool/AmbitiousPoolBuilder.java:34-40 | An absent factory gives NullPointerException and changes nothing. Otherwise it sets the factory, returns the builder itself and leaves the other fields alone. |
| AmbitiousPool.AmbitiousPoolBuilder.WithCorePoolSize | src/main/java/org/codeswarm/ambitiouspool/AmbitiousPoolBuilder.java:42-48 | A negative size gives IllegalArgumentException("Core pool size cannot be negative.") and changes nothing. Otherwise it sets the size, returns the builder itself and leaves the other fields alone. |
| AmbitiousPool.AmbitiousPoolBuilder.Build | src/main/java/org/codeswarm/ambitiouspool/AmbitiousPoolBuilder.java:50-52 | Returns a new, valid pool with the builder's configuration, a count of 0, not shut down and with no task in flight. |

## Left out

- The `ReentrantLock` and concurrency: each of `lookForWork`, `shutdown`, `shutdownNow` and the completion hook runs under the lock, so each is modelled as one atomic step. Interleavings between threads are not modelled.
- `activeThreadCount()` reads the count without the lock. In the model it is an ordinary read of the current state, so a stale read is not modelled.
- The `ThreadPoolExecutor` is not modelled: its construction, keep-alive time, `SynchronousQueue`, thread creation by the thread factory, and the running of tasks. The thread factory and core pool size are only carried through as configuration. A submitted task joins the ghost multiset of tasks in flight. Submitting never fails in the model. In the source, `executorService.submit(task)` (AmbitiousPoolBuilder.java:94) can throw `RejectedExecutionException`, for example when a user thread factory returns no thread, and `lookForWork` passes it on. The task already taken from the supplier at line 92 is then lost, and the count is not incremented for it. That error path is not modelled.
- A task's outcome: the completion hook ignores the `Throwable` it receives, so `Impl.Complete` takes only the finished task.
- `Impl.Complete` requires that the finished task is in flight, which is what the executor guarantees when it calls `afterExecute`. A hook call for a task never submitted is not modelled.
- `Impl.ShutdownNow`: interrupting running threads is not modelled, and neither is the executor's own shutdown. On the pool's state it acts exactly like `Impl.Shutdown`.
- `awaitTermination` blocks on the executor until its tasks finish. Blocking and time are not modelled.
- Suppliers are finite: a supplier is the finite sequence of tasks it will still hand out. Suppliers that produce work indefinitely, or that compute tasks with side effects, are not modelled.
- A supplier is a value held by the pool. Sharing one supplier object between two pools is not modelled.
- A producer adding work between calls is not modelled as a step of its own. Between calls, the supplier's pending sequence may be replaced from outside: `Impl.taskSupplier` is an ordinary field, and `Impl.Valid` says nothing about it. Each contract of `Impl.LookForWork` describes one call against the supplier as it was when that call started (`old(taskSupplier)`).
- Impl.LookForWork: the loop updates local copies of the count and the supplier and writes them back when it ends. The tasks it submits join the ghost multiset in flight at the end of the call. Only the lock-free `activeThreadCount()` read could see the intermediate counts that the source's line 95 produces while a call runs, and such reads are not modelled (see the line about `activeThreadCount()` above).
- Impl.constructor: takes the core pool size as a `nat`. Only the builder, which refuses negative sizes, constructs the pool.
- Java's 32-bit `int` wrap-around of the active count is not modelled. Under `maxPoolSize(m)` the count never exceeds `m`. Under the unlimited strategy, more than 2^31 - 1 tasks in flight would overflow in Java but not in the model.
- The `Shutdownable`, `TaskSupplier`, `PoolLimitationStrategy` and `AmbitiousPool` interfaces are not modelled as types of their own. The two strategies and the two supplier shapes are datatype variants.
