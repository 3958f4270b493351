/** Admission policies: pure decisions, from the pool's current active count
    alone, on whether one more worker may be started. */
module PoolLimitationStrategies {

  import opened Wrappers

  datatype PoolLimitationStrategy = Unlimited | MaxPoolSize(maxThreadCount: nat)
  {
    /** Whether the pool may start one more worker while `activeThreadCount`
        workers are active. The pool is seen only through that count. */
    predicate MayCreateNewThread(activeThreadCount: int)
    {
      match this
      case Unlimited => true
      case MaxPoolSize(m) => activeThreadCount < m
    }
  }

  /** The shared unlimited strategy: it admits at every count. */
  function UnlimitedStrategy(): (r: PoolLimitationStrategy)
    ensures forall c: int :: r.MayCreateNewThread(c)
  {
    Unlimited
  }

  /** A ceiling on the active count. A negative ceiling is refused; any other
      admits exactly while the count is below it. */
  function MaxPoolSizeStrategy(maxThreadCount: int): (r: Result<PoolLimitationStrategy, Exception>)
    ensures r.Failure? <==> maxThreadCount < 0
    ensures r.Failure? ==> r.error == IllegalArgumentException("Max thread count cannot be negative.")
    ensures r.Success? ==> forall c: int :: r.value.MayCreateNewThread(c) <==> c < maxThreadCount
  {
    if maxThreadCount < 0 then
      Failure(IllegalArgumentException("Max thread count cannot be negative."))
    else
      Success(MaxPoolSize(maxThreadCount))
  }

  /** A ceiling of zero never admits: the pool stays drained. */
  lemma MaxPoolSizeZeroNeverAdmits(c: int)
    requires c >= 0
    ensures !MaxPoolSize(0).MayCreateNewThread(c)
  {
  }

  /** Admission is anti-monotone in the count: once a ceiling denies, every
      larger count is denied too. */
  lemma AdmissionAntiMonotone(s: PoolLimitationStrategy, c: int, c': int)
    requires c <= c'
    requires !s.MayCreateNewThread(c)
    ensures !s.MayCreateNewThread(c')
  {
  }
}
