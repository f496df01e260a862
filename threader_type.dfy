/** MultiThreaderBase::ThreaderType: the kinds of multi-threader back end,
    their names, and how the process-wide default kind is chosen from an
    explicit setter call, the environment and the compiled default. */
module ThreaderTypes {

  /** The C++ enumeration is unscoped, so a ThreaderType variable holds an
      integer; values other than the named enumerators are representable and
      must be handled by every switch over the type. */
  newtype ThreaderType = int

  const Platform: ThreaderType := 0
  const Pool: ThreaderType := 1
  const TBB: ThreaderType := 2
  const Unknown: ThreaderType := -1
  const First: ThreaderType := Platform
  const Last: ThreaderType := TBB

  /** The threader kinds that name an actual implementation. */
  predicate IsKnown(t: ThreaderType) {
    First <= t <= Last
  }

  /** Name of a threader kind for display or logging: each implemented kind
      has its own name, and every other value, Unknown or out of range,
      reads "Unknown". */
  function ThreaderTypeToString(threader: ThreaderType): (s: string)
    ensures s == "Platform" <==> threader == Platform
    ensures s == "Pool" <==> threader == Pool
    ensures s == "TBB" <==> threader == TBB
    ensures s == "Unknown" <==> !IsKnown(threader)
  {
    match threader
    case 0 => "Platform"
    case 1 => "Pool"
    case 2 => "TBB"
    case _ => "Unknown"
  }

  /** Threader kind named by a string: exactly the three names that
      ThreaderTypeToString produces for the implemented kinds are recognised,
      and every other string yields Unknown. */
  function ThreaderTypeFromString(threaderString: string): (t: ThreaderType)
    ensures t == Unknown || IsKnown(t)
    ensures IsKnown(t) <==> threaderString in {"Platform", "Pool", "TBB"}
    ensures IsKnown(t) ==> ThreaderTypeToString(t) == threaderString
  {
    if threaderString == "Platform" then Platform
    else if threaderString == "Pool" then Pool
    else if threaderString == "TBB" then TBB
    else Unknown
  }

  /** Naming an implemented kind and reading the name back gives the kind. */
  lemma FromStringOfToString(t: ThreaderType)
    requires IsKnown(t)
    ensures ThreaderTypeFromString(ThreaderTypeToString(t)) == t
  {
  }

  /** Reading a name and printing the kind back gives the name, or "Unknown"
      when the name is not one of the implemented kinds. */
  lemma ToStringOfFromString(s: string)
    ensures ThreaderTypeToString(ThreaderTypeFromString(s)) == (if s in {"Platform", "Pool", "TBB"} then s else "Unknown")
  {
  }

  datatype Option<T> = None | Some(value: T)

  /** The environment variables consulted when no threader was chosen
      explicitly: ITK_GLOBAL_DEFAULT_THREADER names a kind; the deprecated
      ITK_USE_THREADPOOL is read as a truth value. None means unset. */
  datatype Environment = Environment(
    globalDefaultThreader: Option<string>,
    useThreadPool: Option<bool>)

  /** The kind GetGlobalDefaultThreader reports. `explicitlySet` tells whether
      SetGlobalDefaultThreader was ever called; `stored` is the stored kind,
      which is the caller's choice after such a call and the compiled default
      before it. */
  function ResolveDefaultThreader(explicitlySet: bool, stored: ThreaderType, env: Environment): (t: ThreaderType)
    // the developer's explicit choice is respected over the environment
    ensures explicitlySet ==> t == stored
    // without one, the result is the stored default, or a kind named in
    // ITK_GLOBAL_DEFAULT_THREADER, or what ITK_USE_THREADPOOL selects
    ensures t != stored ==>
      (env.globalDefaultThreader.Some? && t == ThreaderTypeFromString(env.globalDefaultThreader.value) && IsKnown(t))
      || (env.globalDefaultThreader.None? && env.useThreadPool.Some? && (t == Pool || t == Platform))
    // a known compiled default is never replaced by Unknown
    ensures !explicitlySet && IsKnown(stored) ==> IsKnown(t)
  {
    if explicitlySet then stored
    else match env.globalDefaultThreader
      case Some(name) =>
        var named := ThreaderTypeFromString(name);
        if named != Unknown then named else stored
      case None =>
        match env.useThreadPool
        case Some(usePool) => if usePool then Pool else Platform
        case None => stored
  }

  /** Once a threader was set explicitly, no environment changes the answer. */
  lemma ExplicitThreaderIgnoresEnvironment(stored: ThreaderType, env1: Environment, env2: Environment)
    ensures ResolveDefaultThreader(true, stored, env1) == ResolveDefaultThreader(true, stored, env2) == stored
  {
  }

  /** ITK_GLOBAL_DEFAULT_THREADER, when it names an implemented kind, decides
      the default and ITK_USE_THREADPOOL is not consulted. */
  lemma NamedThreaderOverridesLegacy(stored: ThreaderType, name: string, legacy: Option<bool>)
    requires IsKnown(ThreaderTypeFromString(name))
    ensures ResolveDefaultThreader(false, stored, Environment(Some(name), legacy)) == ThreaderTypeFromString(name)
  {
  }

  /** The deprecated ITK_USE_THREADPOOL can only choose between Pool and
      Platform: true selects Pool, false selects Platform. */
  lemma LegacyVariableSelectsPoolOrPlatform(stored: ThreaderType, usePool: bool)
    ensures var t := ResolveDefaultThreader(false, stored, Environment(None, Some(usePool)));
      (t == Pool || t == Platform) && (t == Pool <==> usePool)
  {
  }
}
