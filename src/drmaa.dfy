/** The part of the DRMAA 1.0 session (`org.ggf.drmaa.Session`) the runner
    uses, with an in-memory fake standing in for the Grid Engine binding. */
module Drmaa {
  import opened Wrappers
  import Text

  // Program status codes of `Session.getJobProgramStatus` (drmaa_job_ps).
  const UNDETERMINED: int := 0x00
  const QUEUED_ACTIVE: int := 0x10
  const SYSTEM_ON_HOLD: int := 0x11
  const USER_ON_HOLD: int := 0x12
  const USER_SYSTEM_ON_HOLD: int := 0x13
  const RUNNING: int := 0x20
  const SYSTEM_SUSPENDED: int := 0x21
  const USER_SUSPENDED: int := 0x22
  const USER_SYSTEM_SUSPENDED: int := 0x23
  const DONE: int := 0x30
  const FAILED: int := 0x40

  /** The `Session.control` action that kills a job. */
  const TERMINATE: int := 4

  /** What a session call can throw. IllegalArgument, NullPointer and Other
      are not DrmaaExceptions. */
  datatype FaultKind =
    | ExitTimeout
    | InvalidJob
    | NoActiveSession
    | DrmCommunication
    | Authorization
    | Internal
    | OtherDrmaa
    | IllegalArgument
    | NullPointer
    | Other

  /** A thrown exception: its class and its `getLocalizedMessage()`. */
  datatype Fault = Fault(kind: FaultKind, message: string)

  predicate IsDrmaaException(k: FaultKind) {
    !(k.IllegalArgument? || k.NullPointer? || k.Other?)
  }

  /** What `JobInfo.getResourceUsage()` gives: it may throw or return null,
      and the values of the map it returns may be null. */
  datatype UsageFetch =
    | FetchFailed(fault: Fault)
    | FetchedNull
    | Fetched(usage: map<string, Option<string>>)

  /** `JobInfo`: the completion record returned by `Session.wait`. */
  datatype JobInfo = JobInfo(
    jobId: string,
    hasExited: bool,
    exitStatus: int,
    wasAborted: bool,
    hasSignaled: bool,
    terminatingSignal: string,
    hasCoreDump: bool,
    resourceUsage: UsageFetch)

  /** The attributes of a `JobTemplate` that the runner sets. */
  datatype JobTemplate = JobTemplate(
    jobName: string,
    workingDirectory: string,
    joinFiles: bool,
    nativeSpecification: string,
    remoteCommand: string,
    args: seq<string>)

  const BlankTemplate: JobTemplate := JobTemplate("", "", false, "", "", [])

  /** How the fake answers `wait` for one job id. */
  datatype WaitScript =
    | FinishesAfter(seconds: nat, info: JobInfo)
    | NeverFinishes
    | Raises(fault: Fault)

  /** The scripted behaviour of a fake session: which calls fail, and what
      status queries answer. */
  datatype Script = Script(
    createFailure: Option<Fault>,
    runFailure: Option<Fault>,
    deleteFailure: Option<Fault>,
    controlFailure: Option<Fault>,
    exitFailure: Option<Fault>,
    programStatus: map<string, Result<int, Fault>>,
    waits: map<string, WaitScript>)

  /** An in-memory DRMAA session. It keeps the live job templates, the jobs
      submitted and the control requests received. */
  class FakeSession {
    var script: Script
    var templates: map<nat, JobTemplate>
    var nextTemplateId: nat
    var submitted: seq<(string, JobTemplate)>
    var controlled: seq<(string, int)>
    var exited: bool

    ghost predicate Valid()
      reads this
    {
      forall id :: id in templates ==> id < nextTemplateId
    }

    constructor (script: Script)
      ensures Valid()
      ensures this.script == script && templates == map[] && submitted == []
      ensures controlled == [] && !exited
    {
      this.script := script;
      templates := map[];
      nextTemplateId := 0;
      submitted := [];
      controlled := [];
      exited := false;
    }

    /** `createJobTemplate`: a fresh handle to a blank template. */
    method CreateJobTemplate() returns (r: Result<nat, Fault>)
      requires Valid()
      modifies this`templates, this`nextTemplateId
      ensures Valid()
      ensures script.createFailure.Some? ==> r == Err(script.createFailure.value) && templates == old(templates)
      ensures script.createFailure.None? ==>
        r == Ok(old(nextTemplateId)) && r.value !in old(templates)
        && templates == old(templates)[r.value := BlankTemplate]
    {
      if script.createFailure.Some? {
        return Err(script.createFailure.value);
      }
      r := Ok(nextTemplateId);
      templates := templates[nextTemplateId := BlankTemplate];
      nextTemplateId := nextTemplateId + 1;
    }

    /** The attribute setters of `JobTemplate`, all at once. */
    method SetJobTemplate(id: nat, t: JobTemplate)
      requires Valid() && id in templates
      modifies this`templates
      ensures Valid() && templates == old(templates)[id := t]
    {
      templates := templates[id := t];
    }

    /** `runJob`: submits the template and returns the new job's id. */
    method RunJob(id: nat) returns (r: Result<string, Fault>)
      requires id in templates
      modifies this`submitted
      ensures script.runFailure.Some? ==> r == Err(script.runFailure.value) && submitted == old(submitted)
      ensures script.runFailure.None? ==>
        r == Ok(Text.IntToDecimal(|old(submitted)| + 1)) && submitted == old(submitted) + [(r.value, templates[id])]
    {
      if script.runFailure.Some? {
        return Err(script.runFailure.value);
      }
      var jobId := Text.IntToDecimal(|submitted| + 1);
      submitted := submitted + [(jobId, templates[id])];
      r := Ok(jobId);
    }

    /** `deleteJobTemplate`: releases the handle. */
    method DeleteJobTemplate(id: nat) returns (r: Result<(), Fault>)
      requires Valid() && id in templates
      modifies this`templates
      ensures Valid()
      ensures script.deleteFailure.Some? ==> r == Err(script.deleteFailure.value) && templates == old(templates)
      ensures script.deleteFailure.None? ==> r == Ok(()) && templates == old(templates) - {id}
    {
      if script.deleteFailure.Some? {
        return Err(script.deleteFailure.value);
      }
      templates := templates - {id};
      r := Ok(());
    }

    /** `getJobProgramStatus`: an unknown job id raises InvalidJob. */
    function GetJobProgramStatus(jobId: string): (r: Result<int, Fault>)
      reads this
      ensures jobId in script.programStatus ==> r == script.programStatus[jobId]
      ensures jobId !in script.programStatus ==> r.Err? && r.error.kind.InvalidJob?
    {
      if jobId in script.programStatus then script.programStatus[jobId]
      else Err(Fault(InvalidJob, "The job specified by the 'jobid' does not exist."))
    }

    /** `wait(jobId, timeout)`: the completion record if the job finishes
      within the timeout, ExitTimeout otherwise. */
    function Wait(jobId: string, timeoutSeconds: nat): (r: Result<JobInfo, Fault>)
      reads this
      ensures jobId !in script.waits ==> r.Err? && r.error.kind.InvalidJob?
      ensures jobId in script.waits && script.waits[jobId].NeverFinishes? ==> r.Err? && r.error.kind.ExitTimeout?
      ensures jobId in script.waits && script.waits[jobId].FinishesAfter? ==>
        if script.waits[jobId].seconds <= timeoutSeconds then r == Ok(script.waits[jobId].info)
        else r.Err? && r.error.kind.ExitTimeout?
      ensures jobId in script.waits && script.waits[jobId].Raises? ==> r == Err(script.waits[jobId].fault)
    {
      if jobId !in script.waits then
        Err(Fault(InvalidJob, "The job specified by the 'jobid' does not exist."))
      else match script.waits[jobId]
        case FinishesAfter(seconds, info) =>
          if seconds <= timeoutSeconds then Ok(info)
          else Err(Fault(ExitTimeout, "time-out while waiting for job completion"))
        case NeverFinishes => Err(Fault(ExitTimeout, "time-out while waiting for job completion"))
        case Raises(f) => Err(f)
    }

    /** `control(jobId, action)`. */
    method Control(jobId: string, action: int) returns (r: Result<(), Fault>)
      modifies this`controlled
      ensures script.controlFailure.Some? ==> r == Err(script.controlFailure.value) && controlled == old(controlled)
      ensures script.controlFailure.None? ==> r == Ok(()) && controlled == old(controlled) + [(jobId, action)]
    {
      if script.controlFailure.Some? {
        return Err(script.controlFailure.value);
      }
      controlled := controlled + [(jobId, action)];
      r := Ok(());
    }

    /** `exit()`: ends the session. */
    method Exit() returns (r: Result<(), Fault>)
      modifies this`exited
      ensures script.exitFailure.Some? ==> r == Err(script.exitFailure.value) && exited == old(exited)
      ensures script.exitFailure.None? ==> r == Ok(()) && exited
    {
      if script.exitFailure.Some? {
        return Err(script.exitFailure.value);
      }
      exited := true;
      r := Ok(());
    }
  }
}
