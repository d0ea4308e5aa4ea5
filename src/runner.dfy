/** `DrmaaV1JobRunner`: submits GenePattern jobs to a Grid Engine cluster
    through a DRMAA 1.0 session, reports their status and cancels them. */
module Runner {
  import opened Wrappers
  import opened Text
  import opened JavaFile
  import opened Job
  import opened NativeSpec
  import opened Drmaa
  import opened SortedMap
  import opened StateMapping
  import opened ResourceUsage

  /** A `CommandExecutorException`: its message and the exception it wraps. */
  datatype ExecutorError = ExecutorError(message: string, cause: Option<Fault>)

  /** How `initSession` ends when `start` calls it. */
  datatype SessionInit =
    | Initialised(session: FakeSession)
    | InitFailed(fault: Fault)

  /** A `DrmJobRecord`: the GenePattern job number and the scheduler's job id. */
  datatype JobRecord = JobRecord(gpJobNo: int, extJobId: string)

  /** What `cancelJob` throws: the session gate's error or the session's. */
  datatype CancelError =
    | NoSession(error: ExecutorError)
    | ControlFailed(fault: Fault)

  /** `requestStatus` waits this many seconds for the job to finish. */
  const TimeoutSeconds: nat := 5

  const ConfigurationError: string := "DRMAA configuration error"
  const NotInitialised: string := "session is not initialized"
  const NullCommandLine: string := "jobSubmission.commandLine==null"
  const EmptyCommandLine: string := "jobSubmission.commandLine.size==0"
  const AddingJob: string := "adding job to queue, gpJobNo="
  const DrmaaSubmitError: string := "Error " + AddingJob
  const UnexpectedSubmitError: string := "Unexpected exception " + AddingJob

  /** The NullPointerException of `getWorkingDir().getAbsolutePath()` for a
      job without a working directory; its message is null, printed "null". */
  const NullWorkingDir: Fault := Fault(NullPointer, "null")

  /** `validateCmdLine`: the command line, if there is one and it is not empty. */
  function ValidateCmdLine(job: Submission): (r: Result<seq<string>, ExecutorError>)
    ensures r.Ok? <==> job.commandLine.Some? && |job.commandLine.value| > 0
    ensures r.Ok? ==> r.value == job.commandLine.value
    ensures job.commandLine.None? ==> r == Err(ExecutorError(NullCommandLine, None))
    ensures job.commandLine == Some([]) ==> r == Err(ExecutorError(EmptyCommandLine, None))
  {
    if job.commandLine.None? then Err(ExecutorError(NullCommandLine, None))
    else if |job.commandLine.value| == 0 then Err(ExecutorError(EmptyCommandLine, None))
    else Ok(job.commandLine.value)
  }

  /** The job name `GP_<gpJobNo>`. */
  function JobName(gpJobNo: int): string {
    "GP_" + IntToDecimal(gpJobNo)
  }

  /** The job number reads back from the job name, so distinct jobs get
      distinct names. */
  lemma JobNameReadsBack(gpJobNo: int)
    ensures var name := JobName(gpJobNo);
      |name| > 3 && name[..3] == "GP_" && ParseDecimal(name[3..]) == Some(gpJobNo)
  {
    var name := JobName(gpJobNo);
    assert name[3..] == IntToDecimal(gpJobNo);
    IntToDecimalRoundTrip(gpJobNo);
  }

  /** The template `initJobTemplate` fills in for a job with a command line
      and a working directory. */
  function TemplateFor(job: Submission, userDir: string): (t: JobTemplate)
    requires ValidateCmdLine(job).Ok? && job.workingDir.Some?
    ensures [t.remoteCommand] + t.args == job.commandLine.value
    ensures t.jobName == JobName(job.gpJobNo) && !t.joinFiles
    ensures t.workingDirectory == GetAbsolutePath(job.workingDir.value, userDir)
    ensures IsAbsolute(job.workingDir.value) ==> t.workingDirectory == job.workingDir.value.path
    ensures IsAbsolute(File(userDir)) ==> IsAbsolute(File(t.workingDirectory))
    ensures t.nativeSpecification == FormatNativeSpecification(NativeSpecification(job))
  {
    var cmd := job.commandLine.value;
    assert [cmd[0]] + cmd[1..] == cmd;
    JobTemplate(JobName(job.gpJobNo), GetAbsolutePath(job.workingDir.value, userDir), false,
                FormatNativeSpecification(NativeSpecification(job)), cmd[0], cmd[1..])
  }

  /** Everything in a submitted template reads back: the job number from
      its name, the command line from command and args, and the flags from
      the native specification when no flag holds a space. */
  lemma TemplateReadsBack(job: Submission, userDir: string)
    requires ValidateCmdLine(job).Ok? && job.workingDir.Some?
    requires var spec := NativeSpecification(job);
      forall i :: 0 <= i < |spec| ==> NoChar(spec[i].GetOr(""), ' ')
    ensures var t := TemplateFor(job, userDir);
      && ParseDecimal(t.jobName[3..]) == Some(job.gpJobNo)
      && [t.remoteCommand] + t.args == job.commandLine.value
      && Split(t.nativeSpecification, ' ') == Rendered(NativeSpecification(job))
  {
    JobNameReadsBack(job.gpJobNo);
    NativeSpecificationLineRoundTrip(job);
  }

  /** Which call of `submitJob` fails first, if any, and the job id the
      session hands out otherwise. */
  function SubmitOutcome(script: Script, job: Submission, jobsSoFar: nat): (r: Result<string, Fault>)
    ensures r.Ok? <==>
      script.createFailure.None? && job.workingDir.Some? && script.runFailure.None? && script.deleteFailure.None?
    ensures r.Ok? ==> r.value == IntToDecimal(jobsSoFar + 1)
    ensures r.Err? ==>
      r.error == NullWorkingDir || Some(r.error) in {script.createFailure, script.runFailure, script.deleteFailure}
    // the first failing call decides the error: create, then the working
    // directory, then run, then delete
    ensures script.createFailure.Some? ==> r == Err(script.createFailure.value)
    ensures script.createFailure.None? && job.workingDir.None? ==> r == Err(NullWorkingDir)
    ensures script.createFailure.None? && job.workingDir.Some? && script.runFailure.Some?
      ==> r == Err(script.runFailure.value)
    ensures (script.createFailure.None? && job.workingDir.Some? && script.runFailure.None?
             && script.deleteFailure.Some?) ==> r == Err(script.deleteFailure.value)
  {
    if script.createFailure.Some? then Err(script.createFailure.value)
    else if job.workingDir.None? then Err(NullWorkingDir)
    else if script.runFailure.Some? then Err(script.runFailure.value)
    else if script.deleteFailure.Some? then Err(script.deleteFailure.value)
    else Ok(IntToDecimal(jobsSoFar + 1))
  }

  /** The `CommandExecutorException` `startJob` wraps a submission failure
      in: DRMAA errors and unexpected ones get different messages, both
      naming the job number and the cause's message. */
  function SubmitFailure(gpJobNo: int, f: Fault): (e: ExecutorError)
    ensures e.cause == Some(f)
    ensures IsDrmaaException(f.kind) ==>
      e.message == DrmaaSubmitError + IntToDecimal(gpJobNo) + ", DrmaaException=" + f.message
    ensures !IsDrmaaException(f.kind) ==>
      e.message == UnexpectedSubmitError + IntToDecimal(gpJobNo) + ": " + f.message
    ensures StartsWith(e.message, DrmaaSubmitError) <==> IsDrmaaException(f.kind)
  {
    var no := IntToDecimal(gpJobNo);
    if IsDrmaaException(f.kind) then
      var m := DrmaaSubmitError + no + ", DrmaaException=" + f.message;
      assert m[..|DrmaaSubmitError|] == DrmaaSubmitError;
      ExecutorError(m, Some(f))
    else
      var m := UnexpectedSubmitError + no + ": " + f.message;
      assert m[0] == UnexpectedSubmitError[0] != DrmaaSubmitError[0];
      ExecutorError(m, Some(f))
  }

  /** The job number reads back from the failure message: it is the text
      between the prefix and the first `,` (DRMAA) or `:` (unexpected)
      after it. */
  lemma SubmitFailureNamesJob(gpJobNo: int, f: Fault)
    ensures var m := SubmitFailure(gpJobNo, f).message;
      var prefix := if IsDrmaaException(f.kind) then DrmaaSubmitError else UnexpectedSubmitError;
      var stop := if IsDrmaaException(f.kind) then ',' else ':';
      var end := |prefix| + |IntToDecimal(gpJobNo)|;
      && end < |m| && m[end] == stop
      && NoChar(m[|prefix|..end], stop)
      && ParseDecimal(m[|prefix|..end]) == Some(gpJobNo)
  {
    var no := IntToDecimal(gpJobNo);
    var m := SubmitFailure(gpJobNo, f).message;
    var prefix := if IsDrmaaException(f.kind) then DrmaaSubmitError else UnexpectedSubmitError;
    var stop := if IsDrmaaException(f.kind) then ',' else ':';
    assert m == prefix + no + [stop] + m[|prefix| + |no| + 1..];
    assert m[|prefix|..|prefix| + |no|] == no;
    IntToDecimalChars(gpJobNo);
    IntToDecimalRoundTrip(gpJobNo);
  }

  /** `requestDrmJobState`: the table state of the job's program status;
      a failing status query propagates. */
  function RequestDrmJobState(s: FakeSession, extJobId: string): (r: Result<DrmJobState, Fault>)
    reads s
    ensures r.Ok? <==> s.GetJobProgramStatus(extJobId).Ok?
    ensures r.Ok? ==> r.value == JobStateOf(s.GetJobProgramStatus(extJobId).value)
    ensures r.Err? ==> r.error == s.GetJobProgramStatus(extJobId).error
  {
    var code :- s.GetJobProgramStatus(extJobId);
    Ok(JobStateOf(code))
  }

  /** What `requestStatus` reports, given how the wait and the fallback
      state query end. A completion record yields its own job id and usage
      table and a terminal or undetermined state; a listed exception
      propagates; any other exception falls back to the queried id and the
      table state, with no usage. */
  ghost function StatusOf(p: UsageParsers, extJobId: string, wait: Result<JobInfo, Fault>,
                          poll: Result<DrmJobState, Fault>): (r: Result<JobStatus, Fault>)
    ensures wait.Ok? ==>
      && r.Ok? && r.value.extJobId == wait.value.jobId
      && r.value.resourceUsage == Some(TableOf(UsageContents(wait.value.resourceUsage)))
      && r.value.jobState in {Done, Failed, Aborted, Undetermined}
      && r.value == ApplyCompletion(
           LogUsageStats(p, NewStatus(wait.value.jobId, Undetermined),
                         TableOf(UsageContents(wait.value.resourceUsage))), wait.value)
    ensures wait.Err? && Propagates(wait.error.kind) ==> r == Err(wait.error)
    ensures wait.Err? && !Propagates(wait.error.kind) ==>
      && (r.Ok? <==> poll.Ok?)
      && (r.Ok? ==> r.value == NewStatus(extJobId, poll.value))
      && (r.Err? ==> r.error == poll.error)
  {
    match wait
      case Ok(info) =>
        var b := LogUsageStats(p, NewStatus(info.jobId, Undetermined), TableOf(UsageContents(info.resourceUsage)));
        Ok(ApplyCompletion(b, info))
      case Err(f) =>
        if Propagates(f.kind) then Err(f)
        else match poll
          case Ok(state) => Ok(NewStatus(extJobId, state))
          case Err(g) => Err(g)
  }

  /** A wait that times out is the usual case of a job still running: the
      report is the table state of the job's program status. */
  lemma TimeoutFallsBack(p: UsageParsers, extJobId: string, message: string, code: int)
    ensures StatusOf(p, extJobId, Err(Fault(ExitTimeout, message)), Ok(JobStateOf(code)))
      == Ok(PolledStatus(extJobId, code))
  {
  }

  /** The degraded report of `getStatus` for a status query that failed. */
  function StatusOrQueueError(extJobId: string, r: Result<JobStatus, Fault>): (st: JobStatus)
    ensures r.Ok? ==> st == r.value
    ensures r.Err? ==> st == QueueErrorStatus(extJobId, r.error.message)
  {
    match r
      case Ok(status) => status
      case Err(f) => QueueErrorStatus(extJobId, f.message)
  }

  class DrmaaV1JobRunner {
    var session: FakeSession?
    var sessionInitError: Option<Fault>
    /** The number parsers of the usage fields. */
    const parsers: UsageParsers
    /** The JVM's `user.dir`, against which relative working directories resolve. */
    const userDir: string

    constructor (parsers: UsageParsers, userDir: string)
      ensures session == null && sessionInitError.None?
      ensures this.parsers == parsers && this.userDir == userDir
    {
      session := null;
      sessionInitError := None;
      this.parsers := parsers;
      this.userDir := userDir;
    }

    /** `start`: clears the recorded error and opens a session. A DRMAA
        failure is recorded; any other failure is not. On failure the
        previous session, if any, stays in place. */
    method Start(init: SessionInit)
      modifies this`session, this`sessionInitError
      ensures init.Initialised? ==> session == init.session && sessionInitError.None?
      ensures init.InitFailed? ==> session == old(session)
      ensures init.InitFailed? ==>
        sessionInitError == if IsDrmaaException(init.fault.kind) then Some(init.fault) else None
    {
      sessionInitError := None;
      match init
      case Initialised(s) =>
        session := s;
      case InitFailed(f) =>
        if IsDrmaaException(f.kind) {
          sessionInitError := Some(f);
        }
    }

    /** `stop`: ends the session and forgets both the session and the
        recorded error. A DRMAA failure of `exit()` is logged and ignored;
        any other failure escapes before anything is forgotten. */
    method Stop() returns (r: Result<(), Fault>)
      modifies this`session, this`sessionInitError, session
      ensures old(session) != null && old(session.script).exitFailure.Some?
              && !IsDrmaaException(old(session.script).exitFailure.value.kind)
        ==> r == Err(old(session.script).exitFailure.value)
            && session == old(session) && sessionInitError == old(sessionInitError)
      ensures r.Ok? <==> old(session) == null || old(session.script).exitFailure.None?
                         || IsDrmaaException(old(session.script).exitFailure.value.kind)
      ensures r.Ok? ==> session == null && sessionInitError.None?
      ensures old(session) != null ==>
        old(session).exited == (old(session.exited) || old(session.script).exitFailure.None?)
      ensures old(session) != null ==>
        && old(session).script == old(session.script)
        && old(session).templates == old(session.templates)
        && old(session).nextTemplateId == old(session.nextTemplateId)
        && old(session).submitted == old(session.submitted)
        && old(session).controlled == old(session.controlled)
    {
      if session != null {
        var exit := session.Exit();
        if exit.Err? && !IsDrmaaException(exit.error.kind) {
          return Err(exit.error);
        }
      }
      session := null;
      sessionInitError := None;
      r := Ok(());
    }

    /** `getSession`: the session, or why there is none. */
    function GetSession(): (r: Result<FakeSession, ExecutorError>)
      reads this
      ensures r.Ok? <==> session != null
      ensures r.Ok? ==> r.value == session
      ensures r.Err? ==> r.error.cause == sessionInitError
      ensures r.Err? ==> (r.error.message == ConfigurationError <==> sessionInitError.Some?)
      ensures r.Err? ==> (r.error.message == NotInitialised <==> sessionInitError.None?)
    {
      if session == null then
        if sessionInitError.Some? then Err(ExecutorError(ConfigurationError, sessionInitError))
        else Err(ExecutorError(NotInitialised, None))
      else Ok(session)
    }

    /** `initJobTemplate`: a new template with the job's name, working
        directory, native specification and command. The name is set before
        the working directory is read, so a job without one leaves a
        template behind named but otherwise blank. */
    method InitJobTemplate(s: FakeSession, job: Submission) returns (r: Result<nat, Fault>)
      requires s.Valid() && ValidateCmdLine(job).Ok?
      modifies s`templates, s`nextTemplateId
      ensures s.Valid()
      ensures s.script.createFailure.Some? ==>
        r == Err(s.script.createFailure.value) && s.templates == old(s.templates)
      ensures s.script.createFailure.None? && job.workingDir.None? ==>
        && r == Err(NullWorkingDir)
        && s.templates == old(s.templates)[old(s.nextTemplateId) := BlankTemplate.(jobName := JobName(job.gpJobNo))]
      ensures s.script.createFailure.None? && job.workingDir.Some? ==>
        && r == Ok(old(s.nextTemplateId)) && r.value !in old(s.templates)
        && s.templates == old(s.templates)[r.value := TemplateFor(job, userDir)]
    {
      var created := s.CreateJobTemplate();
      if created.Err? {
        return Err(created.error);
      }
      var id := created.value;
      ghost var before := s.templates;
      var jt := BlankTemplate.(jobName := JobName(job.gpJobNo));
      s.SetJobTemplate(id, jt);
      if job.workingDir.None? {
        return Err(NullWorkingDir);
      }
      jt := jt.(workingDirectory := GetAbsolutePath(job.workingDir.value, userDir), joinFiles := false);
      var nativeSpecArgs := InitNativeSpecification(job);
      jt := jt.(nativeSpecification := FormatNativeSpecification(nativeSpecArgs));
      var cmd := job.commandLine.value;
      jt := jt.(remoteCommand := cmd[0], args := cmd[1..]);
      assert jt == TemplateFor(job, userDir);
      s.SetJobTemplate(id, jt);
      assert s.templates == before[id := jt];
      r := Ok(id);
    }

    /** `submitJob`: create the template, run it, delete it. There is no
        `finally`: the template is released only when the run succeeds,
        and a failure to release it fails the submission. */
    method SubmitJob(s: FakeSession, job: Submission) returns (r: Result<string, Fault>)
      requires s.Valid() && ValidateCmdLine(job).Ok?
      modifies s`templates, s`nextTemplateId, s`submitted
      ensures s.Valid()
      ensures r == SubmitOutcome(s.script, job, |old(s.submitted)|)
      ensures s.script.createFailure.None? && job.workingDir.Some? && s.script.runFailure.None? ==>
        s.submitted == old(s.submitted) + [(IntToDecimal(|old(s.submitted)| + 1), TemplateFor(job, userDir))]
      ensures s.script.createFailure.Some? || job.workingDir.None? || s.script.runFailure.Some? ==>
        s.submitted == old(s.submitted)
      ensures r.Ok? || s.script.createFailure.Some? ==> s.templates == old(s.templates)
      ensures r.Err? && s.script.createFailure.None? ==>
        s.templates.Keys == old(s.templates).Keys + {old(s.nextTemplateId)}
    {
      var jt :- InitJobTemplate(s, job);
      var jobId :- s.RunJob(jt);
      var _ :- s.DeleteJobTemplate(jt);
      r := Ok(jobId);
    }

    /** `startJob`: validates the command line, opens the gate and submits.
        A submission failure comes back wrapped, with the job number. */
    method StartJob(job: Submission) returns (r: Result<string, ExecutorError>)
      requires session != null ==> session.Valid()
      modifies session
      ensures session != null ==> session.Valid()
      ensures ValidateCmdLine(job).Err? ==> r == Err(ValidateCmdLine(job).error)
      ensures ValidateCmdLine(job).Ok? && session == null ==> r == Err(GetSession().error)
      ensures ValidateCmdLine(job).Ok? && session != null ==>
        r == match SubmitOutcome(session.script, job, |old(session.submitted)|)
               case Ok(id) => Ok(id)
               case Err(f) => Err(SubmitFailure(job.gpJobNo, f))
      ensures r.Ok? ==>
        && session != null
        && session.submitted == old(session.submitted) + [(r.value, TemplateFor(job, userDir))]
        && session.templates == old(session.templates)
      ensures ValidateCmdLine(job).Err? && session != null ==> unchanged(session)
      ensures session != null ==>
        session.script == old(session.script) && session.controlled == old(session.controlled)
        && session.exited == old(session.exited)
      ensures session != null && ValidateCmdLine(job).Ok? ==>
        var sc := session.script;
        && (sc.createFailure.None? && job.workingDir.Some? && sc.runFailure.None? ==>
              session.submitted == old(session.submitted)
                + [(IntToDecimal(|old(session.submitted)| + 1), TemplateFor(job, userDir))])
        && (sc.createFailure.Some? || job.workingDir.None? || sc.runFailure.Some? ==>
              session.submitted == old(session.submitted))
        && (r.Ok? || sc.createFailure.Some? ==> session.templates == old(session.templates))
        && (r.Err? && sc.createFailure.None? ==>
              session.templates.Keys == old(session.templates).Keys + {old(session.nextTemplateId)})
    {
      var _ :- ValidateCmdLine(job);
      var s :- GetSession();
      var submitted := SubmitJob(s, job);
      match submitted
      case Ok(jobId) =>
        r := Ok(jobId);
      case Err(f) =>
        r := Err(SubmitFailure(job.gpJobNo, f));
    }

    /** `requestStatus`: wait briefly for the job; report its completion
        record if it finished, otherwise its table state. */
    method RequestStatus(s: FakeSession, extJobId: string) returns (r: Result<JobStatus, Fault>)
      ensures r == StatusOf(parsers, extJobId, s.Wait(extJobId, TimeoutSeconds), RequestDrmJobState(s, extJobId))
    {
      var waited := s.Wait(extJobId, TimeoutSeconds);
      if waited.Ok? {
        var info := waited.value;
        var b := NewStatus(info.jobId, Undetermined);
        var usage := InitResourceUsageMap(info.resourceUsage);
        b := LogUsageStats(parsers, b, usage);
        return Ok(ApplyCompletion(b, info));
      }
      if Propagates(waited.error.kind) {
        return Err(waited.error);
      }
      var gpState :- RequestDrmJobState(s, extJobId);
      r := Ok(NewStatus(extJobId, gpState));
    }

    /** `getStatus`: never fails. Any error, from the gate or the session,
        becomes an undetermined status for the record's job id. */
    method GetStatus(record: JobRecord) returns (r: JobStatus)
      ensures session == null ==> r == QueueErrorStatus(record.extJobId, GetSession().error.message)
      ensures session != null ==>
        r == StatusOrQueueError(record.extJobId,
               StatusOf(parsers, record.extJobId, session.Wait(record.extJobId, TimeoutSeconds),
                        RequestDrmJobState(session, record.extJobId)))
      ensures session == null || session.Wait(record.extJobId, TimeoutSeconds).Err? ==>
        r.extJobId == record.extJobId
    {
      var gate := GetSession();
      if gate.Err? {
        return QueueErrorStatus(record.extJobId, gate.error.message);
      }
      var status := RequestStatus(gate.value, record.extJobId);
      r := StatusOrQueueError(record.extJobId, status);
    }

    /** `requestCancelJob`: asks the session to terminate the job. */
    method RequestCancelJob(s: FakeSession, extJobId: string) returns (r: Result<bool, Fault>)
      modifies s`controlled
      ensures s.script.controlFailure.None? ==>
        r == Ok(true) && s.controlled == old(s.controlled) + [(extJobId, TERMINATE)]
      ensures s.script.controlFailure.Some? ==>
        r == Err(s.script.controlFailure.value) && s.controlled == old(s.controlled)
    {
      var _ :- s.Control(extJobId, TERMINATE);
      r := Ok(true);
    }

    /** `cancelJob`: opens the gate and terminates the record's job. */
    method CancelJob(record: JobRecord) returns (r: Result<bool, CancelError>)
      modifies session
      ensures session == null ==> r == Err(NoSession(GetSession().error))
      ensures session != null && session.script.controlFailure.None? ==>
        r == Ok(true) && session.controlled == old(session.controlled) + [(record.extJobId, TERMINATE)]
      ensures session != null && session.script.controlFailure.Some? ==>
        r == Err(ControlFailed(session.script.controlFailure.value))
        && session.controlled == old(session.controlled)
      ensures session != null ==>
        && session.script == old(session.script)
        && session.templates == old(session.templates)
        && session.nextTemplateId == old(session.nextTemplateId)
        && session.submitted == old(session.submitted)
        && session.exited == old(session.exited)
    {
      var gate := GetSession();
      if gate.Err? {
        return Err(NoSession(gate.error));
      }
      var cancelled := RequestCancelJob(gate.value, record.extJobId);
      match cancelled
      case Ok(b) =>
        r := Ok(b);
      case Err(f) =>
        r := Err(ControlFailed(f));
    }
  }
}
