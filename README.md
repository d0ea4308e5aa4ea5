# DrmaaV1JobRunner in Dafny

A model of GenePattern's `DrmaaV1JobRunner`. This job runner hands GenePattern jobs to a Grid Engine cluster
through a DRMAA 1.0 session and then reports their progress. The model covers five parts:

- **Native specification.** The builder turns a job submission into the Grid Engine flag list (`-clear`, `-o`,
  `-e`, `-i`, `-l m_mem_free=…`, `-q`, `-P`, `-pe`, extra args) and joins it into one line.
- **Submission.** This covers validating the command line, filling a job template, and `submitJob`'s
  create/run/delete sequence. `startJob` wraps submission errors.
- **State mapping.** The DRMAA program-status table and the precedence chain over a completion record.
  `requestStatus` sorts exceptions into those that fall back to polling and those that propagate, and
  `getStatus` never fails.
- **Resource usage.** The usage map of a completion record is copied into a key-sorted table, as with a
  `TreeMap`. The cpu, time and memory fields are read out of that table.
- **Session gate.** The `session` and `sessionInitError` fields, set by `start` and `stop` and read by
  `getSession`.

The modules follow the program's structure:

- `Wrappers`: `Option`, `Result`.
- `Text`: Java decimal rendering, Guava's single-character join, and a split used to read a joined line back.
- `JavaFile`: `java.io.File` on Unix: parent, name, absolute path.
- `Job`: the submission record, memory in gigabytes, and `Math.ceil`/`floor`/`round`.
- `NativeSpec`: the builder.
- `SortedMap`: the `TreeMap` as a sorted association list.
- `Drmaa`: the DRMAA session, with an in-memory `FakeSession` class whose failures are scripted.
- `StateMapping`: the status table and the completion chain.
- `ResourceUsage`: the usage table and the parsers.
- `Runner`: the runner class `DrmaaV1JobRunner`.

Where the runner changes state, it is a class: `DrmaaV1JobRunner` owns its two session fields. The session
keeps its templates, submitted jobs and control requests in fields that the runner's methods update. The
builder and the resource-usage loop are methods with loops or step-wise appends. Each is proved against a
function that states its result.

What the code does where a reader might expect otherwise:

- **Template release.** `submitJob` (`DrmaaV1JobRunner.java:590-595`) has no `finally`. A failed `runJob`
  leaves the template allocated, and a failed `deleteJobTemplate` fails the whole submission.
  `Runner.DrmaaV1JobRunner.SubmitJob` states both.
- **Null tokens.** The configured extra args are appended with `addAll`, so a null entry passes through into
  the flag list; the join turns it into `""`. Tokens are therefore `Option<string>`.
- **Custom resource flags.** There is no method for a custom `-l name=value` option, so the model has none.

## Model

| member | source | states |
|---|---|---|
| `Text.IntToDecimalRoundTrip` | src/main/java/org/genepattern/drm/impl/drmaa_v1/DrmaaV1JobRunner.java:540 | the decimal rendering of an integer (`""+n`) reads back to that integer |
| `Text.IntToDecimalInjective` | src/main/java/org/genepattern/drm/impl/drmaa_v1/DrmaaV1JobRunner.java:573 | distinct integers render as distinct strings, so distinct job numbers give distinct job names |
| `Text.SplitJoin` | src/main/java/org/genepattern/drm/impl/drmaa_v1/DrmaaV1JobRunner.java:559-562 | splitting a space-joined line gives the tokens back when no token holds a space |
| `JavaFile.GetAbsolutePath` | src/main/java/org/genepattern/drm/impl/drmaa_v1/DrmaaV1JobRunner.java:574 | an absolute path is kept; an empty relative path gives `user.dir`; any other relative path is appended to `user.dir` after one separator, and the result is absolute when `user.dir` is |
| `JavaFile.ParentJoinName` | src/main/java/org/genepattern/drm/impl/drmaa_v1/DrmaaV1JobRunner.java:549-551 | an absolute normalised file is its parent directory joined with its name |
| `Job.MemoryFromBytes` | src/main/java/org/genepattern/drm/impl/drmaa_v1/DrmaaV1JobRunner.java:668 | the memory, in gigabytes of 2^30 bytes, equals the byte count |
| `Job.Ceil` | src/main/java/org/genepattern/drm/impl/drmaa_v1/DrmaaV1JobRunner.java:468 | the least integer at or above the value |
| `Job.Floor` | src/main/java/org/genepattern/drm/impl/drmaa_v1/DrmaaV1JobRunner.java:641 | the greatest integer at or below the value |
| `Job.Round` | src/main/java/org/genepattern/drm/impl/drmaa_v1/DrmaaV1JobRunner.java:626 | the nearest integer, halves rounded up |
| `NativeSpec.InitFilepath` | src/main/java/org/genepattern/drm/impl/drmaa_v1/DrmaaV1JobRunner.java:543-557 | no file gives the default; a relative file gives its path; an absolute file whose parent is the working directory gives its name; any other file gives its path |
| `NativeSpec.InitFilepathSameFile` | src/main/java/org/genepattern/drm/impl/drmaa_v1/DrmaaV1JobRunner.java:543-557 | resolved against the working directory, the handed-over path names the very file asked for |
| `NativeSpec.InitFilepathExamples` | src/test/java/org/genepattern/drm/impl/drmaa_v1/TestDrmaaV1JobRunner.java:108-134 | no file gives `stdout.txt`; a relative file is passed as it is |
| `NativeSpec.InitFilepathInDirExample` | src/test/java/org/genepattern/drm/impl/drmaa_v1/TestDrmaaV1JobRunner.java:170-177 | a file directly in the job directory `/tmp/7` is passed by its name |
| `NativeSpec.InitFilepathElsewhereExample` | src/test/java/org/genepattern/drm/impl/drmaa_v1/TestDrmaaV1JobRunner.java:199-207 | a file outside the job directory keeps its full path |
| `NativeSpec.GetNumCores` | src/main/java/org/genepattern/drm/impl/drmaa_v1/DrmaaV1JobRunner.java:502-511 | absent iff both counts are absent; otherwise one of the counts set, and no smaller than any count set (the maximum) |
| `NativeSpec.NumCoresExamples` | src/test/java/org/genepattern/drm/impl/drmaa_v1/TestDrmaaV1JobRunner.java:359-441 | none, 8 alone, 4 alone, 8 and 8, 4 and 8, and 8 and 4 give none, 8, 4, 8, 8 and 8 |
| `NativeSpec.GetPeType` | src/main/java/org/genepattern/drm/impl/drmaa_v1/DrmaaV1JobRunner.java:513-519 | the configured `job.ge.pe_type`, or `smp` when it is unset |
| `NativeSpec.GetPeFlags` | src/main/java/org/genepattern/drm/impl/drmaa_v1/DrmaaV1JobRunner.java:529-541 | no flags iff the core count is absent or at most 1; otherwise exactly `-pe <type> <count>` |
| `NativeSpec.PeFlagExamples` | src/test/java/org/genepattern/drm/impl/drmaa_v1/TestDrmaaV1JobRunner.java:312-357 | cpu 8, node 8 and type mpi give the tested flags; -1 and unset give none |
| `NativeSpec.InitNativeSpecification` | src/main/java/org/genepattern/drm/impl/drmaa_v1/DrmaaV1JobRunner.java:439-493 | the list grown flag by flag is the fixed flags, in order, followed by the extra args |
| `NativeSpec.NativeSpecification` | src/main/java/org/genepattern/drm/impl/drmaa_v1/DrmaaV1JobRunner.java:439-493 | the flag list in the order the builder appends it; `NativeSpecificationLayout` and `StdinFlagPosition` characterise where each flag sits |
| `NativeSpec.DefaultNativeSpecification` | src/test/java/org/genepattern/drm/impl/drmaa_v1/TestDrmaaV1JobRunner.java:107-126 | with nothing configured the list is exactly `-o stdout.txt -e stderr.txt` |
| `NativeSpec.NativeSpecificationLayout` | src/main/java/org/genepattern/drm/impl/drmaa_v1/DrmaaV1JobRunner.java:442-491 | `-clear` first iff clear is set, then `-o` and `-e` with their paths; the extra args verbatim at the end; no null before them |
| `NativeSpec.StdinFlagPosition` | src/main/java/org/genepattern/drm/impl/drmaa_v1/DrmaaV1JobRunner.java:457-462 | with a stdin file, `-i` and its path follow the `-e` pair |
| `NativeSpec.MemFreeValueIsCeiling` | src/main/java/org/genepattern/drm/impl/drmaa_v1/DrmaaV1JobRunner.java:464-469 | the number in `m_mem_free=<n>g` is the memory rounded up to whole gigabytes, at least 1 for any positive memory |
| `NativeSpec.MemoryFlagExamples` | src/test/java/org/genepattern/drm/impl/drmaa_v1/TestDrmaaV1JobRunner.java:209-237 | 24 GB, 4.5 GB and 512 MB give `24g`, `5g` and `1g` |
| `NativeSpec.FormatRoundTrip` | src/main/java/org/genepattern/drm/impl/drmaa_v1/DrmaaV1JobRunner.java:559-562 | the joined line splits back into the tokens, null read as `""`, when no token holds a space |
| `NativeSpec.FormatNativeSpecification` | src/main/java/org/genepattern/drm/impl/drmaa_v1/DrmaaV1JobRunner.java:559-562 | the tokens joined by single spaces with null written as `""`; `FormatRoundTrip` shows that the line splits back into the tokens |
| `NativeSpec.NativeSpecificationLineRoundTrip` | src/main/java/org/genepattern/drm/impl/drmaa_v1/DrmaaV1JobRunner.java:576-578 | a job's native specification line reads back into its flag list |
| `SortedMap.Put` | src/main/java/org/genepattern/drm/impl/drmaa_v1/DrmaaV1JobRunner.java:767 | `TreeMap.put` keeps the table sorted and updates the mapping at that one key |
| `SortedMap.SortedUnique` | src/main/java/org/genepattern/drm/impl/drmaa_v1/DrmaaV1JobRunner.java:757 | two sorted tables with the same mapping are identical |
| `Drmaa.FakeSession.CreateJobTemplate` | src/main/java/com/sun/grid/drmaa/SessionImpl.java:88-94 | a failure leaves the templates alone; otherwise a fresh id holds a blank template |
| `Drmaa.FakeSession.SetJobTemplate` | src/main/java/org/genepattern/drm/impl/drmaa_v1/DrmaaV1JobRunner.java:573-585 | the template setters replace that template's attributes and change nothing else |
| `Drmaa.FakeSession.RunJob` | src/main/java/com/sun/grid/drmaa/SessionImpl.java:150-159 | a failure submits nothing; otherwise the template is recorded under a new job id |
| `Drmaa.FakeSession.DeleteJobTemplate` | src/main/java/com/sun/grid/drmaa/SessionImpl.java:96-107 | a failure keeps the template; otherwise the template is removed |
| `Drmaa.FakeSession.GetJobProgramStatus` | src/main/java/com/sun/grid/drmaa/SessionImpl.java:81-85 | the scripted status, or InvalidJob for an unknown job id |
| `Drmaa.FakeSession.Wait` | src/main/java/com/sun/grid/drmaa/SessionImpl.java:181-187 | an unknown job raises InvalidJob; a job that finishes within the timeout gives its completion record; one that finishes later or never times out; a scripted failure is raised as it is |
| `Drmaa.FakeSession.Control` | src/main/java/com/sun/grid/drmaa/SessionImpl.java:42-45 | a failure records nothing; otherwise the request is recorded |
| `Drmaa.FakeSession.Exit` | src/main/java/com/sun/grid/drmaa/SessionImpl.java:54-58 | the session ends unless the call fails |
| `StateMapping.JobStateOf` | src/main/java/org/genepattern/drm/impl/drmaa_v1/DrmaaV1JobRunner.java:597-607 | both hold codes and only they give QUEUED_HELD; the three suspended codes and only they give SUSPENDED; RUNNING, DONE and FAILED likewise; every other code gives UNDETERMINED; never ABORTED |
| `StateMapping.JobStateMapShape` | src/main/java/org/genepattern/drm/impl/drmaa_v1/DrmaaV1JobRunner.java:134-148 | the table holds exactly ten codes and not user-and-system-on-hold, which therefore gives UNDETERMINED |
| `StateMapping.ApplyCompletion` | src/main/java/org/genepattern/drm/impl/drmaa_v1/DrmaaV1JobRunner.java:828-860 | exited decides first (DONE iff exit status 0, exit code recorded), then aborted, then signaled (FAILED with signal and message), then core dump, else UNDETERMINED; only state, message, exit code and signal change |
| `StateMapping.PolledStatus` | src/main/java/org/genepattern/drm/impl/drmaa_v1/DrmaaV1JobRunner.java:897-901 | the fallback status carries the queried id and the table state, and nothing else |
| `StateMapping.QueueErrorStatus` | src/main/java/org/genepattern/drm/impl/drmaa_v1/DrmaaV1JobRunner.java:233-237 | the degraded status is UNDETERMINED with `job queue error: <message>` for the record's id, and no other field is set |
| `StateMapping.Propagates` | src/main/java/org/genepattern/drm/impl/drmaa_v1/DrmaaV1JobRunner.java:863-892 | the six exception kinds `requestStatus` rethrows; `StatusOf` and `TimeoutFallsBack` show that every other failure, a time-out among them, falls back to the status query |
| `ResourceUsage.AsCpuTime` | src/main/java/org/genepattern/drm/impl/drmaa_v1/DrmaaV1JobRunner.java:616-628 | none for an empty or unparsable value; otherwise the seconds in milliseconds, to the nearest one |
| `ResourceUsage.ParseDate` | src/main/java/org/genepattern/drm/impl/drmaa_v1/DrmaaV1JobRunner.java:630-642 | none for an empty or unparsable value; otherwise the time stamp rounded down |
| `ResourceUsage.ParseMemory` | src/main/java/org/genepattern/drm/impl/drmaa_v1/DrmaaV1JobRunner.java:658-681 | none for an empty value; a number is a whole count of bytes, its fraction dropped; anything else is read with units |
| `ResourceUsage.UsageContents` | src/main/java/org/genepattern/drm/impl/drmaa_v1/DrmaaV1JobRunner.java:747-763 | a failed or null fetch gives nothing; otherwise every fetched key, with null values read as `""` |
| `ResourceUsage.TableOf` | src/main/java/org/genepattern/drm/impl/drmaa_v1/DrmaaV1JobRunner.java:757 | a sorted table holding exactly the given mapping |
| `ResourceUsage.TableOfUnique` | src/main/java/org/genepattern/drm/impl/drmaa_v1/DrmaaV1JobRunner.java:757-768 | any sorted table with that mapping is that table, whatever order the keys arrive in |
| `ResourceUsage.InitResourceUsageMap` | src/main/java/org/genepattern/drm/impl/drmaa_v1/DrmaaV1JobRunner.java:746-770 | the loop yields the sorted table of the fetched usage; it is empty iff the fetch failed, gave null or was empty |
| `ResourceUsage.LogUsageStats` | src/main/java/org/genepattern/drm/impl/drmaa_v1/DrmaaV1JobRunner.java:777-805 | the table is attached unchanged; cpu and both times are set iff their key is present; a present `maxvmem` that parses sets memory, and memory changes only to such a value and is never cleared; nothing else changes |
| `ResourceUsage.LogUsageStatsOfNothing` | src/main/java/org/genepattern/drm/impl/drmaa_v1/DrmaaV1JobRunner.java:754-756 | a failed, null or empty fetch attaches an empty table and leaves every typed field alone |
| `ResourceUsage.UsageStatsExample` | src/main/java/org/genepattern/drm/impl/drmaa_v1/DrmaaV1JobRunner.java:691-738 | the documented record gives cpu 2720230 ms, the two time stamps, and 1473015808 bytes of memory |
| `Runner.ValidateCmdLine` | src/main/java/org/genepattern/drm/impl/drmaa_v1/DrmaaV1JobRunner.java:419-426 | accepted iff the command line is present and not empty, with a distinct message for each failure |
| `Runner.JobNameReadsBack` | src/main/java/org/genepattern/drm/impl/drmaa_v1/DrmaaV1JobRunner.java:573 | the job name is `GP_` followed by a decimal that reads back to the job number |
| `Runner.JobName` | src/main/java/org/genepattern/drm/impl/drmaa_v1/DrmaaV1JobRunner.java:573 | `GP_` followed by the job number in decimal; `JobNameReadsBack` shows that the number parses back out of it |
| `Runner.TemplateFor` | src/main/java/org/genepattern/drm/impl/drmaa_v1/DrmaaV1JobRunner.java:571-588 | command followed by args is the command line; the name is the job name; the working directory is the job directory's absolute path; join-files is off; the native specification is the formatted flag list |
| `Runner.TemplateReadsBack` | src/main/java/org/genepattern/drm/impl/drmaa_v1/DrmaaV1JobRunner.java:571-588 | the job number, the command line and the flag list all read back out of the template |
| `Runner.SubmitOutcome` | src/main/java/org/genepattern/drm/impl/drmaa_v1/DrmaaV1JobRunner.java:590-595 | a submission succeeds iff create, working directory, run and delete all succeed; otherwise the error is that of the first failing step, in the order create, working directory, run, delete |
| `Runner.SubmitFailure` | src/main/java/org/genepattern/drm/impl/drmaa_v1/DrmaaV1JobRunner.java:212-221 | the wrapper keeps the cause; a DRMAA failure reads `Error adding job to queue, gpJobNo=<n>, DrmaaException=<message>` and any other `Unexpected exception adding job to queue, gpJobNo=<n>: <message>`; the message starts with the DRMAA prefix iff the cause is a DRMAA exception |
| `Runner.SubmitFailureNamesJob` | src/main/java/org/genepattern/drm/impl/drmaa_v1/DrmaaV1JobRunner.java:213-218 | the job number reads back from the failure message: it is the text between the prefix and the next `,` or `:` |
| `Runner.RequestDrmJobState` | src/main/java/org/genepattern/drm/impl/drmaa_v1/DrmaaV1JobRunner.java:597-607 | the table state of the program status; a failed status query propagates |
| `Runner.StatusOf` | src/main/java/org/genepattern/drm/impl/drmaa_v1/DrmaaV1JobRunner.java:813-902 | a completion record gives its own id, its usage table and a terminal or undetermined state; the six listed exceptions propagate; any other falls back to the queried id and table state |
| `Runner.TimeoutFallsBack` | src/main/java/org/genepattern/drm/impl/drmaa_v1/DrmaaV1JobRunner.java:863-865 | a wait timeout reports the polled table state |
| `Runner.StatusOrQueueError` | src/main/java/org/genepattern/drm/impl/drmaa_v1/DrmaaV1JobRunner.java:226-254 | a status is passed on; any failure becomes the degraded queue-error status |
| `Runner.DrmaaV1JobRunner.constructor` | src/main/java/org/genepattern/drm/impl/drmaa_v1/DrmaaV1JobRunner.java:150-151 | a new runner has no session and no recorded error |
| `Runner.DrmaaV1JobRunner.Start` | src/main/java/org/genepattern/drm/impl/drmaa_v1/DrmaaV1JobRunner.java:174-186 | success installs the session and clears the error; a DRMAA failure is recorded, any other failure is not; on failure the old session stays |
| `Runner.DrmaaV1JobRunner.Stop` | src/main/java/org/genepattern/drm/impl/drmaa_v1/DrmaaV1JobRunner.java:188-201 | the session is asked to exit; a DRMAA failure is ignored and both fields are cleared, while any other failure is raised and both fields keep their values; exit leaves the session's script, templates, submitted jobs and control requests as they were |
| `Runner.DrmaaV1JobRunner.GetSession` | src/main/java/org/genepattern/drm/impl/drmaa_v1/DrmaaV1JobRunner.java:368-378 | the session when there is one; otherwise `DRMAA configuration error` with the recorded cause iff an error was recorded, else `session is not initialized` |
| `Runner.DrmaaV1JobRunner.InitJobTemplate` | src/main/java/org/genepattern/drm/impl/drmaa_v1/DrmaaV1JobRunner.java:571-588 | a fresh template holds exactly the template for the job; without a working directory a named, otherwise blank template is left behind and a null-pointer error is raised |
| `Runner.DrmaaV1JobRunner.SubmitJob` | src/main/java/org/genepattern/drm/impl/drmaa_v1/DrmaaV1JobRunner.java:590-595 | the outcome is `SubmitOutcome`; the job is recorded iff create and run succeed; the templates are unchanged on success; after any later failure one template is left allocated |
| `Runner.DrmaaV1JobRunner.StartJob` | src/main/java/org/genepattern/drm/impl/drmaa_v1/DrmaaV1JobRunner.java:203-222 | validation errors first, then the gate's error, then the submission outcome with every failure wrapped with the job number; the session's submitted jobs and templates change as in `SubmitJob` on every path, and its control requests, exit flag and script stay as they were |
| `Runner.DrmaaV1JobRunner.RequestStatus` | src/main/java/org/genepattern/drm/impl/drmaa_v1/DrmaaV1JobRunner.java:813-902 | the status is `StatusOf` the five-second wait and the fallback status query |
| `Runner.DrmaaV1JobRunner.GetStatus` | src/main/java/org/genepattern/drm/impl/drmaa_v1/DrmaaV1JobRunner.java:224-255 | never fails: a gate or session error gives the queue-error status; without a completion record the status carries the record's job id |
| `Runner.DrmaaV1JobRunner.RequestCancelJob` | src/main/java/org/genepattern/drm/impl/drmaa_v1/DrmaaV1JobRunner.java:904-907 | a terminate request is sent; true unless the request fails |
| `Runner.DrmaaV1JobRunner.CancelJob` | src/main/java/org/genepattern/drm/impl/drmaa_v1/DrmaaV1JobRunner.java:257-261 | the gate's error when there is no session; otherwise the terminate request's outcome; the session's script, templates, submitted jobs and exit flag stay as they were |

## Left out

- Session bootstrap is not modelled: `initSession`, `addLibraryPath`, `System.load`, `debugInitTemplate`,
  the unused `concatProps` and `setCommandProperties`. They are host-runtime plumbing (class loader
  reflection, native libraries, process environment). `start` receives the outcome of `initSession` as a
  `SessionInit` value.
- `SessionImpl.java`, `Env.java` and `Util.java` are not part of this model. The session is the scripted
  `Drmaa.FakeSession`. A template setter never fails in it.
- `isClear` is a configuration lookup; the submission carries its answer as the boolean `clear`. `getProperty`
  is a map of the job's properties.
- `Doubles.tryParse` and `Memory.fromString` are given partial functions (`UsageParsers`). Doubles are exact reals,
  so there is no floating-point rounding. `Math.round`, `Math.floor`, `Math.ceil` and the cast to `long` do
  not saturate.
- `Memory` is a number of gigabytes; `Memory.fromSizeInBytes` divides by 2^30. `Memory.java` is not part of this model.
- The DRMAA constants are those of the Java binding of DRMAA 1.0: program status codes 0x00 to 0x40, and
  TERMINATE is 4.
- `JavaFile.GetAbsolutePath`: the JVM's `user.dir` is the runner's `userDir` parameter. Paths are taken as the
  `File` constructor leaves them, with no doubled separator.
- `SortedMap.Less` and `JavaFile.Normalised` are close to Java but not identical. `Less` compares characters by
  Unicode scalar value, whereas `String.compareTo` compares UTF-16 code units. The two orders disagree between
  supplementary characters and U+E000 to U+FFFF, so for such keys the table order may differ from `TreeMap`'s.
  `Normalised` only forbids doubled separators; the model does not remove a trailing `/` as the `File`
  constructor does.
- `DrmJobStatus.Builder` is the `JobStatus` record. Its default state is taken to be UNDETERMINED; the
  completion chain always overwrites it.
- Logging is not modelled, nor concurrency between `stop` and calls in flight.
- `Drmaa.FakeSession.Wait` does not reap finished jobs; the same wait answer is given every time.
- The tests of `getCustomResourceFlags`, `getGPBigDecimalProperty` with the `-p` priority flag, and
  `Util.prependPath` exercise methods that the shown source does not have; they are not modelled.
