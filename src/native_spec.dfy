/** The native-specification builder: the Grid Engine flags, as a list of
    tokens, that go with a job submission (DrmaaV1JobRunner lines 439-562). */
module NativeSpec {
  import opened Wrappers
  import opened Text
  import opened JavaFile
  import opened Job

  /** A token of the Java list: extra args come from configuration and may
      hold null, which the formatter renders as the empty string. */
  type Token = Option<string>

  const DefaultStdout: string := "stdout.txt"
  const DefaultStderr: string := "stderr.txt"
  const DefaultStdin: string := "stdin.txt"
  /** `JobRunner.PROP_PROJECT` */
  const PropProject: string := "job.project"
  /** `DrmaaV1JobRunner.PROP_PE_TYPE` */
  const PropPeType: string := "job.ge.pe_type"
  const DefaultPeType: string := "smp"

  /** The tokens of a list of (non-null) strings. */
  function Lift(ss: seq<string>): (ts: seq<Token>)
    ensures |ts| == |ss|
  {
    if ss == [] then [] else [Some(ss[0])] + Lift(ss[1..])
  }

  predicate IsNullOrEmpty(s: Option<string>) {
    s.None? || s.value == ""
  }

  /** initFilepath: the path handed to the scheduler for an I/O file. A file
      in the working directory is collapsed to its name. */
  function InitFilepath(workingDir: Option<File>, ioFile: Option<File>, defaultValue: string): (r: string)
    ensures ioFile.None? ==> r == defaultValue
    ensures ioFile.Some? ==> r == ioFile.value.path || r == GetName(ioFile.value)
    ensures ioFile.Some? && !IsAbsolute(ioFile.value) ==> r == ioFile.value.path
    ensures ioFile.Some? && IsAbsolute(ioFile.value) && GetParentFile(ioFile.value).Some?
            && workingDir == GetParentFile(ioFile.value)
            ==> r == GetName(ioFile.value)
    ensures ioFile.Some? && (workingDir.None? || workingDir != GetParentFile(ioFile.value))
            ==> r == ioFile.value.path
  {
    if ioFile.None? then defaultValue
    else
      var f := ioFile.value;
      if IsAbsolute(f) && GetParentFile(f).Some? && workingDir.Some? && GetParentFile(f).value == workingDir.value
      then GetName(f)
      else f.path
  }

  /** The path the builder hands over names the very file the submission
      asked for, once the scheduler resolves it against the working directory. */
  lemma InitFilepathSameFile(wd: File, f: File, defaultValue: string)
    requires IsAbsolute(f) && Normalised(f)
    ensures SchedulerPath(wd, InitFilepath(Some(wd), Some(f), defaultValue)) == f.path
  {
    if GetParentFile(f).Some? && GetParentFile(f).value == wd {
      ParentJoinName(f);
    }
  }

  /** The path cases pinned by the unit tests: no file gives the default,
      a relative file is passed as it is. */
  lemma InitFilepathExamples()
    ensures InitFilepath(None, None, DefaultStdout) == "stdout.txt"
    ensures InitFilepath(None, Some(File(".custom_stdout.txt")), DefaultStdout) == ".custom_stdout.txt"
  {
  }

  /** A file directly inside the working directory is passed by name only. */
  lemma InitFilepathInDirExample()
    ensures InitFilepath(Some(File("/tmp/7")), Some(File("/tmp/7/stdin.txt")), DefaultStdin) == "stdin.txt"
  {
    var inDir := File("/tmp/7/stdin.txt");
    assert inDir.path[6] == '/';
    assert inDir.path[7..] == "stdin.txt";
    assert forall k :: 6 < k < |inDir.path| ==> inDir.path[k] == inDir.path[7..][k - 7];
    assert LastSlash(inDir.path) == 6;
    assert inDir.path[..6] == "/tmp/7";
    assert GetParentFile(inDir) == Some(File("/tmp/7"));
    assert IsAbsolute(inDir);
    assert GetName(inDir) == "stdin.txt";
  }

  /** A file outside the working directory keeps its full path. */
  lemma InitFilepathElsewhereExample()
    ensures InitFilepath(Some(File("/tmp/7")), Some(File("/tmp/.custom_stdin.txt")), DefaultStdin)
      == "/tmp/.custom_stdin.txt"
  {
    var elsewhere := File("/tmp/.custom_stdin.txt");
    assert elsewhere.path[4] == '/';
    assert LastSlash(elsewhere.path) == 4;
    assert elsewhere.path[..4] == "/tmp";
    assert GetParentFile(elsewhere) == Some(File("/tmp"));
    assert File("/tmp") != File("/tmp/7");
  }

  /** getNumCores: the larger of the cpu and node counts, whichever are set.
      (Java compares the two Integer boxes with `==`; when equal values sit in
      different boxes the `Math.max` branch returns the same value.) */
  function GetNumCores(cpuCount: Option<int>, nodeCount: Option<int>): (r: Option<int>)
    ensures r.None? <==> cpuCount.None? && nodeCount.None?
    ensures r.Some? ==> (cpuCount == r || nodeCount == r)
    ensures r.Some? && cpuCount.Some? ==> cpuCount.value <= r.value
    ensures r.Some? && nodeCount.Some? ==> nodeCount.value <= r.value
  {
    if cpuCount == nodeCount then cpuCount
    else if nodeCount.None? && cpuCount.Some? then cpuCount
    else if cpuCount.None? && nodeCount.Some? then nodeCount
    else Some(if nodeCount.value >= cpuCount.value then nodeCount.value else cpuCount.value)
  }

  /** The core counts pinned by the unit tests. */
  lemma NumCoresExamples()
    ensures GetNumCores(None, None) == None
    ensures GetNumCores(Some(8), None) == Some(8)
    ensures GetNumCores(None, Some(4)) == Some(4)
    ensures GetNumCores(Some(8), Some(8)) == Some(8)
    ensures GetNumCores(Some(4), Some(8)) == Some(8)
    ensures GetNumCores(Some(8), Some(4)) == Some(8)
  {
  }

  /** getPeType: the configured parallel environment, "smp" when unset. */
  function GetPeType(job: Submission): (r: string)
    ensures PropPeType in job.properties ==> r == job.properties[PropPeType]
    ensures PropPeType !in job.properties ==> r == DefaultPeType
  {
    Property(job, PropPeType).GetOr(DefaultPeType)
  }

  /** getPeFlags: `-pe <type> <n>` for a multi-core job, nothing otherwise. */
  function GetPeFlags(job: Submission): (r: seq<string>)
    ensures var n := GetNumCores(job.cpuCount, job.nodeCount);
      && (r == [] <==> n.None? || n.value <= 1)
      && (r != [] ==> r == ["-pe", GetPeType(job), IntToDecimal(n.value)])
  {
    var numCores := GetNumCores(job.cpuCount, job.nodeCount);
    if numCores.None? then []
    else if numCores.value <= 1 then []
    else ["-pe", GetPeType(job), IntToDecimal(numCores.value)]
  }

  function ClearFlags(job: Submission): seq<string> {
    if job.clear then ["-clear"] else []
  }

  function StdoutPath(job: Submission): string {
    InitFilepath(job.workingDir, job.stdoutFile, DefaultStdout)
  }

  function StderrPath(job: Submission): string {
    InitFilepath(job.workingDir, job.stderrFile, DefaultStderr)
  }

  function StdinFlags(job: Submission): seq<string> {
    if job.stdinFile.Some? then ["-i", InitFilepath(job.workingDir, job.stdinFile, DefaultStdin)] else []
  }

  /** The `m_mem_free` resource value: the memory rounded up to whole GB. */
  function MemFreeValue(m: Memory): string {
    "m_mem_free=" + IntToDecimal(Ceil(m.numGb)) + "g"
  }

  function MemoryFlags(job: Submission): seq<string> {
    if job.memory.Some? then ["-l", MemFreeValue(job.memory.value)] else []
  }

  function QueueFlags(job: Submission): seq<string> {
    if !IsNullOrEmpty(job.queue) then ["-q", job.queue.value] else []
  }

  function ProjectFlags(job: Submission): seq<string> {
    var project := Property(job, PropProject);
    if !IsNullOrEmpty(project) then ["-P", project.value] else []
  }

  function ExtraArgs(job: Submission): seq<Token> {
    if job.extraArgs.Some? then job.extraArgs.value else []
  }

  /** The fixed part of the specification, before the extra args. */
  function FixedFlags(job: Submission): seq<string> {
    ClearFlags(job) + ["-o", StdoutPath(job), "-e", StderrPath(job)] + StdinFlags(job)
      + MemoryFlags(job) + QueueFlags(job) + ProjectFlags(job) + GetPeFlags(job)
  }

  /** The native specification, in its documented order. */
  function NativeSpecification(job: Submission): seq<Token> {
    Lift(FixedFlags(job)) + ExtraArgs(job)
  }

  /** initNativeSpecification: grows the list flag by flag. */
  method InitNativeSpecification(job: Submission) returns (rval: seq<Token>)
    ensures rval == NativeSpecification(job)
  {
    rval := [];
    if job.clear {
      rval := rval + [Some("-clear")];
      assert Lift(["-clear"]) == [Some("-clear")];
    }
    ghost var done := ClearFlags(job);
    assert rval == Lift(done);
    var stdout := InitFilepath(job.workingDir, job.stdoutFile, DefaultStdout);
    rval := rval + [Some("-o")];
    rval := rval + [Some(stdout)];
    var stderr := InitFilepath(job.workingDir, job.stderrFile, DefaultStderr);
    rval := rval + [Some("-e")];
    rval := rval + [Some(stderr)];
    AddPair(done, "-o", stdout);
    AddPair(done + ["-o", stdout], "-e", stderr);
    assert done + ["-o", stdout] + ["-e", stderr] == done + ["-o", stdout, "-e", stderr];
    done := done + ["-o", stdout, "-e", stderr];
    assert rval == Lift(done);
    if job.stdinFile.Some? {
      var stdin := InitFilepath(job.workingDir, job.stdinFile, DefaultStdin);
      rval := rval + [Some("-i")];
      rval := rval + [Some(stdin)];
      AddPair(done, "-i", stdin);
    }
    assert StdinFlags(job) == [] ==> done + StdinFlags(job) == done;
    done := done + StdinFlags(job);
    assert rval == Lift(done);
    if job.memory.Some? {
      rval := rval + [Some("-l")];
      rval := rval + [Some("m_mem_free=" + IntToDecimal(Ceil(job.memory.value.numGb)) + "g")];
      AddPair(done, "-l", MemFreeValue(job.memory.value));
    }
    assert MemoryFlags(job) == [] ==> done + MemoryFlags(job) == done;
    done := done + MemoryFlags(job);
    assert rval == Lift(done);
    if !IsNullOrEmpty(job.queue) {
      rval := rval + [Some("-q")];
      rval := rval + [Some(job.queue.value)];
      AddPair(done, "-q", job.queue.value);
    }
    assert QueueFlags(job) == [] ==> done + QueueFlags(job) == done;
    done := done + QueueFlags(job);
    assert rval == Lift(done);
    var project := Property(job, PropProject);
    if !IsNullOrEmpty(project) {
      rval := rval + [Some("-P")];
      rval := rval + [Some(project.value)];
      AddPair(done, "-P", project.value);
    }
    assert ProjectFlags(job) == [] ==> done + ProjectFlags(job) == done;
    done := done + ProjectFlags(job);
    assert rval == Lift(done);
    rval := rval + Lift(GetPeFlags(job));
    LiftAppend(done, GetPeFlags(job));
    done := done + GetPeFlags(job);
    assert rval == Lift(done);
    assert done == FixedFlags(job);
    var extraArgs := job.extraArgs;
    if extraArgs.Some? {
      rval := rval + extraArgs.value;
    }
  }

  lemma {:induction false} LiftAppend(a: seq<string>, b: seq<string>)
    ensures Lift(a + b) == Lift(a) + Lift(b)
  {
    if a == [] {
      assert a + b == b;
    } else {
      var ab := a + b;
      assert ab != [] && ab[0] == a[0] && ab[1..] == a[1..] + b;
      LiftAppend(a[1..], b);
      calc {
        Lift(ab);
        [Some(a[0])] + Lift(a[1..] + b);
        [Some(a[0])] + (Lift(a[1..]) + Lift(b));
        ([Some(a[0])] + Lift(a[1..])) + Lift(b);
      }
    }
  }

  /** Adding a flag and its value to the list. */
  lemma AddPair(done: seq<string>, flag: string, value: string)
    ensures Lift(done + [flag, value]) == Lift(done) + [Some(flag)] + [Some(value)]
  {
    LiftAppend(done, [flag, value]);
    assert Lift([flag, value]) == [Some(flag)] + Lift([value]);
  }

  lemma {:induction false} LiftAt(ss: seq<string>, i: nat)
    requires i < |ss|
    ensures Lift(ss)[i] == Some(ss[i])
  {
    if i > 0 {
      LiftAt(ss[1..], i - 1);
    }
  }

  /** formatNativeSpecification: one line, tokens separated by one space,
      null tokens written as the empty string. */
  function FormatNativeSpecification(args: seq<Token>): string {
    Join(Rendered(args), ' ')
  }

  function Rendered(args: seq<Token>): (r: seq<string>)
    ensures |r| == |args|
    ensures forall i :: 0 <= i < |args| ==> r[i] == args[i].GetOr("")
  {
    seq(|args|, i requires 0 <= i < |args| => args[i].GetOr(""))
  }

  /** With nothing configured the specification is exactly
      `-o stdout.txt -e stderr.txt`. */
  lemma DefaultNativeSpecification()
    ensures NativeSpecification(EmptySubmission()) == Lift(["-o", "stdout.txt", "-e", "stderr.txt"])
  {
    var job := EmptySubmission();
    assert GetPeFlags(job) == [];
    assert FixedFlags(job) == ["-o", "stdout.txt", "-e", "stderr.txt"];
  }

  /** Where each part of the specification sits: the optional `-clear`
      first, then `-o` and `-e` with their paths, the extra args verbatim at
      the end, and no null token anywhere before them. */
  lemma {:induction false} NativeSpecificationLayout(job: Submission)
    ensures var spec := NativeSpecification(job);
      var c := if job.clear then 1 else 0;
      && |spec| >= c + 4
      && (spec[0] == Some("-clear") <==> job.clear)
      && spec[c] == Some("-o") && spec[c + 1] == Some(StdoutPath(job))
      && spec[c + 2] == Some("-e") && spec[c + 3] == Some(StderrPath(job))
      && spec[|spec| - |ExtraArgs(job)|..] == ExtraArgs(job)
      && (job.extraArgs.None? ==> spec == Lift(FixedFlags(job)))
      && (forall i :: 0 <= i < |spec| - |ExtraArgs(job)| ==> spec[i].Some?)
  {
    var spec := NativeSpecification(job);
    var fixed := FixedFlags(job);
    var c := if job.clear then 1 else 0;
    assert fixed[c] == "-o" && fixed[c + 1] == StdoutPath(job);
    assert fixed[c + 2] == "-e" && fixed[c + 3] == StderrPath(job);
    assert fixed[0] == if job.clear then "-clear" else "-o";
    LiftAt(fixed, 0);
    LiftAt(fixed, c);
    LiftAt(fixed, c + 1);
    LiftAt(fixed, c + 2);
    LiftAt(fixed, c + 3);
    forall i | 0 <= i < |spec| - |ExtraArgs(job)|
      ensures spec[i].Some?
    {
      LiftAt(fixed, i);
    }
  }

  /** When a stdin file is set, its flag pair directly follows `-e`. */
  lemma StdinFlagPosition(job: Submission)
    requires job.stdinFile.Some?
    ensures var c := if job.clear then 1 else 0;
      && FixedFlags(job)[c + 4] == "-i"
      && FixedFlags(job)[c + 5] == InitFilepath(job.workingDir, job.stdinFile, DefaultStdin)
  {
  }

  /** The number in `m_mem_free=<n>g` is the memory rounded up to whole
      gigabytes, so it is at least 1 for any positive amount. */
  lemma MemFreeValueIsCeiling(m: Memory, n: int)
    requires MemFreeValue(m) == "m_mem_free=" + IntToDecimal(n) + "g"
    ensures n as real - 1.0 < m.numGb <= n as real
    ensures m.numGb > 0.0 ==> n >= 1
  {
    var s := MemFreeValue(m);
    var k := Ceil(m.numGb);
    var prefix := "m_mem_free=";
    assert s == prefix + IntToDecimal(k) + "g";
    assert s[|prefix|..|s| - 1] == IntToDecimal(k);
    assert s[|prefix|..|s| - 1] == IntToDecimal(n);
    IntToDecimalInjective(k, n);
  }

  /** The memory flags pinned by the unit tests: 24 GB, 4.5 GB and 512 MB. */
  lemma MemoryFlagExamples()
    ensures MemFreeValue(Memory(24.0)) == "m_mem_free=24g"
    ensures MemFreeValue(Memory(4.5)) == "m_mem_free=5g"
    ensures MemFreeValue(MemoryFromBytes(512 * 1048576)) == "m_mem_free=1g"
  {
    assert Ceil(24.0) == 24;
    assert Ceil(4.5) == 5;
    assert Ceil(MemoryFromBytes(512 * 1048576).numGb) == 1;
  }

  /** The parallel-environment flags pinned by the unit tests. */
  lemma PeFlagExamples(job: Submission)
    ensures GetPeFlags(job.(cpuCount := Some(8), nodeCount := None, properties := map[]))
      == ["-pe", "smp", "8"]
    ensures GetPeFlags(job.(cpuCount := None, nodeCount := Some(8), properties := map[]))
      == ["-pe", "smp", "8"]
    ensures GetPeFlags(job.(cpuCount := Some(8), nodeCount := None, properties := map[PropPeType := "mpi"]))
      == ["-pe", "mpi", "8"]
    ensures GetPeFlags(job.(cpuCount := Some(-1), nodeCount := None)) == []
    ensures GetPeFlags(job.(cpuCount := None, nodeCount := None)) == []
  {
    assert IntToDecimal(8) == "8";
  }

  /** Reading the formatted line back token by token reproduces the tokens,
      with null written as "", whenever no token holds a space. */
  lemma FormatRoundTrip(args: seq<Token>)
    requires |args| > 0
    requires forall i :: 0 <= i < |args| ==> NoChar(args[i].GetOr(""), ' ')
    ensures Split(FormatNativeSpecification(args), ' ') == Rendered(args)
  {
    SplitJoin(Rendered(args), ' ');
  }

  /** The native specification line of a job reads back into its flags. */
  lemma NativeSpecificationLineRoundTrip(job: Submission)
    requires var spec := NativeSpecification(job);
      forall i :: 0 <= i < |spec| ==> NoChar(spec[i].GetOr(""), ' ')
    ensures Split(FormatNativeSpecification(NativeSpecification(job)), ' ')
      == Rendered(NativeSpecification(job))
  {
    NativeSpecificationLayout(job);
    FormatRoundTrip(NativeSpecification(job));
  }
}
