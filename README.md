# ITK MultiThreaderBase: thread-count configuration, threader naming, region adapter

A Dafny model of the sequential part of `itk::MultiThreaderBase`, the base class
of ITK's multi-threaders:

- **Thread-count configuration** (`multi_threader_base.dfy`, `thread_counts.dfy`).
  The process-wide settings (global maximum and default thread counts, default
  threader kind and whether it was chosen explicitly) are the class
  `MultiThreaderBaseGlobals`; a multi-threader is the class `MultiThreaderBase`
  with its own `numberOfThreads`. Every setter clamps its argument: the global
  maximum into `[1, ITK_MAX_THREADS]`, the global default and the per-instance
  count into `[1, current global maximum]`. A new multi-threader starts with the
  global default, and execution re-clamps the count against the current maximum,
  in case the maximum was lowered after the count was set.
- **Threader kinds** (`threader_type.dfy`). `ThreaderType` is the unscoped enum
  `{Platform = 0, Pool, TBB, Unknown = -1}`, modelled as a newtype over `int` so
  that out-of-range values exist, as they do in C++. The third kind keeps the header's
  name, TBB (Threading Building Blocks).
  `ThreaderTypeToString` and `ThreaderTypeFromString` convert to and from names. `ResolveDefaultThreader`
  is the choice `GetGlobalDefaultThreader` makes. It takes the environment
  variables `ITK_GLOBAL_DEFAULT_THREADER` and `ITK_USE_THREADPOOL` as inputs.
- **Region adapter** (`region_adapter.dfy`). The templated
  `ParallelizeImageRegion` forwards an `ImageRegion<VDimension>` as VDimension
  plus flat index/size arrays. For every chunk it rebuilds a region with a
  per-dimension loop of `SetIndex`/`SetSize`. The rebuilt region carries exactly
  the chunk's index and size, so region → arrays → region is the identity.

`ThreadIdType` is a 32-bit unsigned subset type. `IndexValueType` and
`SizeValueType` are signed and unsigned 64-bit subset types. `ITK_MAX_THREADS`
is the constant `ItkMaxThreads`. It is set to the build configuration's default
of 128. The members' contracts use only `ItkMaxThreads >= 1`;
`ConfigurationScenario`, a client that replays a configuration sequence,
relies on the value 128.

Several bodies are declared in the header but not shown. What the header
fixes for them is modelled as stated:
- an explicit `SetGlobalDefaultThreader` call wins over the environment
  (lines 136-137);
- `ITK_GLOBAL_DEFAULT_THREADER` names the default kind (lines 129-130);
- `ITK_USE_THREADPOOL` can only choose Pool or Platform (lines 131-132);
- the global default thread count lies in `[1, maximum]` (lines 141-144).

The rest are modelling choices that the header leaves open:
- `SetGlobalMaximumNumberOfThreads` also lowers a global default above the new
  maximum, so that the default keeps its documented range.
- `ThreaderTypeFromString` matches exactly the three names that
  `ThreaderTypeToString` produces, case-sensitively.
- If `ITK_GLOBAL_DEFAULT_THREADER` is set but names no implemented kind, the
  stored (compiled) default is kept, and `ITK_USE_THREADPOOL` is not read.
- `ITK_USE_THREADPOOL` is read only when `ITK_GLOBAL_DEFAULT_THREADER` is unset.
- With neither variable set, the stored (compiled) default is kept.

## Model

| member | source | states |
|---|---|---|
| ThreadCounts.Clamp | Modules/Core/Common/include/itkMultiThreaderBase.h:78-90 | the clamp every setter applies: the result lies in `[lo, hi]`, equals the argument when it is already in range, and is the nearer bound otherwise |
| ThreaderTypes.ThreaderTypeToString | Modules/Core/Common/include/itkMultiThreaderBase.h:108-125 | "Platform", "Pool" and "TBB" are produced exactly for their own kinds; "Unknown" is produced exactly for every other value, Unknown and out-of-range integers included |
| ThreaderTypes.ThreaderTypeFromString | Modules/Core/Common/include/itkMultiThreaderBase.h:104-105 | the result is an implemented kind exactly when the string is one of the three names, in which case `ThreaderTypeToString` gives the string back; any other string gives Unknown |
| ThreaderTypes.FromStringOfToString | Modules/Core/Common/include/itkMultiThreaderBase.h:102-125 | for every implemented kind, reading back its name gives the kind |
| ThreaderTypes.ToStringOfFromString | Modules/Core/Common/include/itkMultiThreaderBase.h:104-125 | printing the kind read from a name gives the name for the three known names and "Unknown" for every other string |
| ThreaderTypes.ResolveDefaultThreader | Modules/Core/Common/include/itkMultiThreaderBase.h:127-139 | an explicit choice is returned whatever the environment; otherwise the result is the stored default, a kind named by `ITK_GLOBAL_DEFAULT_THREADER`, or Pool/Platform from `ITK_USE_THREADPOOL`; a known compiled default never resolves to Unknown |
| ThreaderTypes.ExplicitThreaderIgnoresEnvironment | Modules/Core/Common/include/itkMultiThreaderBase.h:136-137 | after an explicit choice, any two environments give the same answer, the choice itself |
| ThreaderTypes.NamedThreaderOverridesLegacy | Modules/Core/Common/include/itkMultiThreaderBase.h:129-132 | a kind named by `ITK_GLOBAL_DEFAULT_THREADER` is the default whatever `ITK_USE_THREADPOOL` says |
| ThreaderTypes.LegacyVariableSelectsPoolOrPlatform | Modules/Core/Common/include/itkMultiThreaderBase.h:131-132 | the deprecated `ITK_USE_THREADPOOL` alone can only yield Pool or Platform, Pool exactly when it is true |
| MultiThreading.MultiThreaderBaseGlobals.constructor | Modules/Core/Common/include/itkMultiThreaderBase.h:84-146 | process start: maximum `ITK_MAX_THREADS`, default count clamped into range, threader the compiled default and not explicitly set |
| MultiThreading.MultiThreaderBaseGlobals.SetGlobalMaximumNumberOfThreads | Modules/Core/Common/include/itkMultiThreaderBase.h:84-89 | stores `clamp(val, 1, ITK_MAX_THREADS)`, lowers a larger default to the new maximum, leaves the threader settings alone, and keeps the ranges invariant |
| MultiThreading.MultiThreaderBaseGlobals.GetGlobalMaximumNumberOfThreads | Modules/Core/Common/include/itkMultiThreaderBase.h:90 | returns the stored maximum, never 0 and never above `ITK_MAX_THREADS` |
| MultiThreading.MultiThreaderBaseGlobals.SetGlobalDefaultNumberOfThreads | Modules/Core/Common/include/itkMultiThreaderBase.h:141-145 | stores `clamp(val, 1, current maximum)`; no other configuration field changes |
| MultiThreading.MultiThreaderBaseGlobals.GetGlobalDefaultNumberOfThreads | Modules/Core/Common/include/itkMultiThreaderBase.h:146 | returns the stored default, within `[1, current maximum]` |
| MultiThreading.MultiThreaderBaseGlobals.SetGlobalDefaultThreader | Modules/Core/Common/include/itkMultiThreaderBase.h:136-138 | stores the kind and marks it explicit; the thread counts do not change |
| MultiThreading.MultiThreaderBaseGlobals.GetGlobalDefaultThreader | Modules/Core/Common/include/itkMultiThreaderBase.h:127-139 | returns the resolution of the stored settings against the environment: the explicit choice if there is one, otherwise an implemented kind |
| MultiThreading.MultiThreaderBase.constructor | Modules/Core/Common/include/itkMultiThreaderBase.h:266-275 | a new multi-threader's count is the global default |
| MultiThreading.MultiThreaderBase.SetNumberOfThreads | Modules/Core/Common/include/itkMultiThreaderBase.h:78-81 | stores `clamp(n, 1, current maximum)`; the stored count differs from the request exactly when the request was out of range |
| MultiThreading.MultiThreaderBase.GetNumberOfThreads | Modules/Core/Common/include/itkMultiThreaderBase.h:82 | returns the count in effect, at least 1 and within `ITK_MAX_THREADS` |
| MultiThreading.MultiThreaderBase.SingleMethodExecute | Modules/Core/Common/include/itkMultiThreaderBase.h:163-167 | the count is re-clamped to the current maximum (only ever lowered), and the number of threads used never exceeds that maximum, even if it was lowered after the count was set |
| RegionAdapter.DefaultRegion | Modules/Core/Common/include/itkMultiThreaderBase.h:207 | the region the functor's adapter starts from has VDimension dimensions with every index and size zero |
| RegionAdapter.RebuildRegion | Modules/Core/Common/include/itkMultiThreaderBase.h:205-213 | the region rebuilt from a chunk's arrays has the dimension VDimension and, in every dimension d, exactly the chunk's `index[d]` and `size[d]` |
| RegionAdapter.ParallelizeImageRegion | Modules/Core/Common/include/itkMultiThreaderBase.h:198-216 | the non-templated overload receives VDimension and the region's own arrays unchanged; the functor receives one region per chunk equal to that chunk, so a chunk that is the whole request gives back the requested region (region → arrays → region is the identity) |

## Left out

- Thread spawning, the dispatch in `SingleMethodExecute` and `SetSingleMethod`, and the Platform/Pool/TBB back ends: these are concurrency, and their bodies are not part of this model. `SingleMethodExecute` keeps only its re-clamping of the thread count.
- `SingleMethodProxy` and `ThreadInfoStruct::ThreadExitCode`: exception capture across threads.
- `ArrayCallback` and `RegionAndCallback`, with their atomic progress counters, the calling-thread check and `ProcessObject` progress updates: atomics and a foreign progress sink.
- The chunk splitting of `ParallelizeArray` and of the non-templated `ParallelizeImageRegion`: only declared in the header. The adapter takes the chunk plan as a parameter instead of computing one.
- Reading environment variables: their values are the `Environment` parameter of `GetGlobalDefaultThreader`. `ITK_USE_THREADPOOL` is given as a truth value; how its text is read as true or false is not modelled.
- The start-up default thread count, which comes from the platform: it is the `initialNumberOfThreads` parameter of the configuration constructor. The compiled default threader is the parameter `compiledDefaultThreader`.
- MultiThreading.MultiThreaderBaseGlobals.GetGlobalDefaultThreader: reads the environment on every call. It does not model a resolved default being cached after the first read, because that caching is not part of the header.
- `Get/SetMultiThreaderBaseGlobals` pointer handling, `PrintSelf`, `operator<<`, smart pointers and object-factory creation: object infrastructure.
- The legacy `Set/GetGlobalDefaultUseThreadPool`: their bodies are not part of this model.
- Code/IO/itkTransformFileWriter.h: writing a transform file goes through an external library (I/O plus a foreign call). What is left is a list of transform pointers whose setters are not shown.
