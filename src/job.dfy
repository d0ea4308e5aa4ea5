/** The job description the runner receives (a `DrmJobSubmission`), with the
    memory quantity it may carry. */
module Job {
  import opened Wrappers
  import opened JavaFile

  /** A memory quantity, held exactly as a number of gigabytes (2^30 bytes). */
  datatype Memory = Memory(numGb: real)

  const BytesPerGb: int := 1073741824

  /** `Memory.fromSizeInBytes`. */
  function MemoryFromBytes(n: int): (m: Memory)
    ensures m.numGb * BytesPerGb as real == n as real
  {
    Memory(n as real / BytesPerGb as real)
  }

  /** `Math.ceil` followed by the cast to long (no overflow modelled). */
  function Ceil(x: real): (n: int)
    ensures n as real - 1.0 < x <= n as real
  {
    if x.Floor as real == x then x.Floor else x.Floor + 1
  }

  /** `Math.floor` followed by the cast to long. */
  function Floor(x: real): (n: int)
    ensures n as real <= x < n as real + 1.0
  {
    x.Floor
  }

  /** `Math.round`: the nearest integer, halves rounded up. */
  function Round(x: real): (n: int)
    ensures n as real - 0.5 <= x < n as real + 0.5
  {
    (x + 0.5).Floor
  }

  /** A job submission. Every Java reference that may be null is an Option;
      `properties` is the job's configuration (`getProperty` of a missing
      key is null), and `clear` is the already-looked-up `job.ge.clear` flag. */
  datatype Submission = Submission(
    gpJobNo: int,
    commandLine: Option<seq<string>>,
    workingDir: Option<File>,
    stdoutFile: Option<File>,
    stderrFile: Option<File>,
    stdinFile: Option<File>,
    memory: Option<Memory>,
    queue: Option<string>,
    cpuCount: Option<int>,
    nodeCount: Option<int>,
    extraArgs: Option<seq<Option<string>>>,
    properties: map<string, string>,
    clear: bool)

  /** A submission with nothing configured: the mocked submission of the tests. */
  function EmptySubmission(): Submission {
    Submission(0, None, None, None, None, None, None, None, None, None, None, map[], false)
  }

  /** `getProperty(name)`. */
  function Property(job: Submission, name: string): Option<string> {
    if name in job.properties then Some(job.properties[name]) else None
  }
}
