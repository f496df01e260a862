/** Thread counts as itk::MultiThreaderBase sees them: the unsigned
    ThreadIdType, the compiled ceiling ITK_MAX_THREADS, and the clamping
    every thread-count setter applies to its argument. */
module ThreadCounts {

  /** ThreadIdType is a 32-bit unsigned integer. */
  type ThreadIdType = x: int | 0 <= x < 0x1_0000_0000

  /** The compiled ceiling ITK_MAX_THREADS (the build configuration's default
      value). Several arrays are statically sized by it, so no thread count may
      exceed it. The members' contracts use only `1 <= ItkMaxThreads`;
      MultiThreading.ConfigurationScenario relies on the value 128. */
  const ItkMaxThreads: ThreadIdType := 128

  function Min(a: int, b: int): int {
    if a <= b then a else b
  }

  /** `v` brought into the closed range [lo, hi]: unchanged when already
      inside, otherwise the nearer bound. */
  function Clamp(v: int, lo: int, hi: int): (r: int)
    requires lo <= hi
    ensures lo <= r <= hi
    ensures lo <= v <= hi ==> r == v
    ensures v < lo ==> r == lo
    ensures hi < v ==> r == hi
  {
    if v < lo then lo else if hi < v then hi else v
  }
}
