/** The thread-count configuration of itk::MultiThreaderBase: the process-wide
    settings shared by every multi-threader (MultiThreaderBaseGlobals) and the
    per-instance thread count, with the clamping each setter applies. */
module MultiThreading {
  import opened ThreadCounts
  import opened ThreaderTypes

  /** The process-wide state behind MultiThreaderBase's static members: the
      global maximum and default thread counts and the default threader kind,
      with the flag that records an explicit SetGlobalDefaultThreader call. */
  class MultiThreaderBaseGlobals {
    var globalMaximumNumberOfThreads: ThreadIdType
    var globalDefaultNumberOfThreads: ThreadIdType
    var globalDefaultThreader: ThreaderType
    var globalDefaultThreaderIsSet: bool

    /** The documented ranges: the maximum in [1, ITK_MAX_THREADS], the
        default in [1, maximum]; before an explicit choice the stored threader
        is the compiled default, an implemented kind. */
    ghost predicate Valid()
      reads this
    {
      1 <= globalMaximumNumberOfThreads <= ItkMaxThreads
      && 1 <= globalDefaultNumberOfThreads <= globalMaximumNumberOfThreads
      && (!globalDefaultThreaderIsSet ==> IsKnown(globalDefaultThreader))
    }

    /** Process start-up: the maximum is ITK_MAX_THREADS, the default thread
        count is the start-up value (found from the platform, not modelled)
        clamped into range, and the threader is the compiled default. */
    constructor (compiledDefaultThreader: ThreaderType, initialNumberOfThreads: ThreadIdType)
      requires IsKnown(compiledDefaultThreader)
      ensures Valid()
      ensures globalMaximumNumberOfThreads == ItkMaxThreads
      ensures globalDefaultNumberOfThreads == Clamp(initialNumberOfThreads, 1, ItkMaxThreads)
      ensures globalDefaultThreader == compiledDefaultThreader && !globalDefaultThreaderIsSet
    {
      globalMaximumNumberOfThreads := ItkMaxThreads;
      globalDefaultNumberOfThreads := Clamp(initialNumberOfThreads, 1, ItkMaxThreads);
      globalDefaultThreader := compiledDefaultThreader;
      globalDefaultThreaderIsSet := false;
    }

    /** Stores `val` clamped into [1, ITK_MAX_THREADS]; a default above the
        new maximum is lowered to it, so the default stays in range. */
    method SetGlobalMaximumNumberOfThreads(val: ThreadIdType)
      requires Valid()
      modifies this
      ensures Valid()
      ensures globalMaximumNumberOfThreads == Clamp(val, 1, ItkMaxThreads)
      ensures globalDefaultNumberOfThreads == Min(old(globalDefaultNumberOfThreads), globalMaximumNumberOfThreads)
      ensures globalDefaultThreader == old(globalDefaultThreader)
      ensures globalDefaultThreaderIsSet == old(globalDefaultThreaderIsSet)
    {
      globalMaximumNumberOfThreads := Clamp(val, 1, ItkMaxThreads);
      if globalMaximumNumberOfThreads < globalDefaultNumberOfThreads {
        globalDefaultNumberOfThreads := globalMaximumNumberOfThreads;
      }
    }

    /** The stored maximum, never 0 and never above ITK_MAX_THREADS. */
    method GetGlobalMaximumNumberOfThreads() returns (r: ThreadIdType)
      requires Valid()
      ensures r == globalMaximumNumberOfThreads
      ensures 1 <= r <= ItkMaxThreads
    {
      r := globalMaximumNumberOfThreads;
    }

    /** Stores `val` clamped into [1, current maximum]; nothing else changes. */
    method SetGlobalDefaultNumberOfThreads(val: ThreadIdType)
      requires Valid()
      modifies this
      ensures Valid()
      ensures globalDefaultNumberOfThreads == Clamp(val, 1, globalMaximumNumberOfThreads)
      ensures globalMaximumNumberOfThreads == old(globalMaximumNumberOfThreads)
      ensures globalDefaultThreader == old(globalDefaultThreader)
      ensures globalDefaultThreaderIsSet == old(globalDefaultThreaderIsSet)
    {
      globalDefaultNumberOfThreads := Clamp(val, 1, globalMaximumNumberOfThreads);
    }

    /** The stored default, within [1, current maximum]. */
    method GetGlobalDefaultNumberOfThreads() returns (r: ThreadIdType)
      requires Valid()
      ensures r == globalDefaultNumberOfThreads
      ensures 1 <= r <= globalMaximumNumberOfThreads
    {
      r := globalDefaultNumberOfThreads;
    }

    /** Records the developer's choice of threader; from now on it is
        respected over the environment. The thread counts do not change. */
    method SetGlobalDefaultThreader(threaderType: ThreaderType)
      requires Valid()
      modifies this
      ensures Valid()
      ensures globalDefaultThreader == threaderType && globalDefaultThreaderIsSet
      ensures globalMaximumNumberOfThreads == old(globalMaximumNumberOfThreads)
      ensures globalDefaultNumberOfThreads == old(globalDefaultNumberOfThreads)
    {
      globalDefaultThreader := threaderType;
      globalDefaultThreaderIsSet := true;
    }

    /** The default threader given the environment variables `env`: the
        explicit choice if one was made, otherwise the environment's
        choice or the compiled default, which is never Unknown. */
    method GetGlobalDefaultThreader(env: Environment) returns (t: ThreaderType)
      requires Valid()
      ensures t == ResolveDefaultThreader(globalDefaultThreaderIsSet, globalDefaultThreader, env)
      ensures globalDefaultThreaderIsSet ==> t == globalDefaultThreader
      ensures !globalDefaultThreaderIsSet ==> IsKnown(t)
    {
      t := ResolveDefaultThreader(globalDefaultThreaderIsSet, globalDefaultThreader, env);
    }
  }

  /** One multi-threader: its own thread count, seeded from and bounded by
      the process-wide settings in `globals`. */
  class MultiThreaderBase {
    const globals: MultiThreaderBaseGlobals
    var numberOfThreads: ThreadIdType

    /** The count is at least 1 and within ITK_MAX_THREADS; it may exceed a
        global maximum that was lowered after it was set. */
    ghost predicate Valid()
      reads this, globals
    {
      globals.Valid() && 1 <= numberOfThreads <= ItkMaxThreads
    }

    /** A new multi-threader starts with the global default thread count. */
    constructor (globals: MultiThreaderBaseGlobals)
      requires globals.Valid()
      ensures Valid() && this.globals == globals
      ensures numberOfThreads == globals.globalDefaultNumberOfThreads
    {
      this.globals := globals;
      numberOfThreads := globals.globalDefaultNumberOfThreads;
    }

    /** Stores the request clamped into [1, current global maximum]; the
        caller must read back the count actually accepted. */
    method SetNumberOfThreads(n: ThreadIdType)
      requires Valid()
      modifies this
      ensures Valid()
      ensures numberOfThreads == Clamp(n, 1, globals.globalMaximumNumberOfThreads)
      ensures n != numberOfThreads <==> (n < 1 || globals.globalMaximumNumberOfThreads < n)
    {
      numberOfThreads := Clamp(n, 1, globals.globalMaximumNumberOfThreads);
    }

    /** The count in effect, at least 1 and within ITK_MAX_THREADS. */
    method GetNumberOfThreads() returns (r: ThreadIdType)
      requires Valid()
      ensures r == numberOfThreads
      ensures 1 <= r <= ItkMaxThreads
    {
      r := numberOfThreads;
    }

    /** The thread-count side of SingleMethodExecute: before the threads are
        started the count is checked against the current global maximum and
        lowered to it if necessary; `threadsUsed` is the number of threads
        the execution then runs. */
    method SingleMethodExecute() returns (threadsUsed: ThreadIdType)
      requires Valid()
      modifies this
      ensures Valid()
      ensures numberOfThreads == Clamp(old(numberOfThreads), 1, globals.globalMaximumNumberOfThreads)
      // only ever lowered
      ensures numberOfThreads <= old(numberOfThreads)
      ensures threadsUsed == numberOfThreads
      ensures 1 <= threadsUsed <= globals.globalMaximumNumberOfThreads
    {
      numberOfThreads := Clamp(numberOfThreads, 1, globals.globalMaximumNumberOfThreads);
      threadsUsed := numberOfThreads;
    }
  }

  /** A client of the contracts above: lowering the global maximum after a
      multi-threader was built bounds its next execution, and an explicit
      threader choice outlives any environment. */
  method ConfigurationScenario(env: Environment)
  {
    var globals := new MultiThreaderBaseGlobals(Pool, 16);
    var threader := new MultiThreaderBase(globals);
    var n := threader.GetNumberOfThreads();
    assert n == 16;

    globals.SetGlobalMaximumNumberOfThreads(8);
    threader.SetNumberOfThreads(20);
    n := threader.GetNumberOfThreads();
    assert n == 8;

    globals.SetGlobalMaximumNumberOfThreads(0);
    n := globals.GetGlobalMaximumNumberOfThreads();
    assert n == 1;
    var used := threader.SingleMethodExecute();
    assert used == 1;

    globals.SetGlobalDefaultThreader(TBB);
    var t := globals.GetGlobalDefaultThreader(env);
    assert t == TBB;
  }
}
