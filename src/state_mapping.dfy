/** The normalised job state and status record, and how DRMAA's program
    status codes and completion records map onto them. */
module StateMapping {
  import opened Wrappers
  import opened Drmaa
  import opened Job
  import SortedMap

  /** GenePattern's `DrmJobState`, restricted to the values the runner uses. */
  datatype DrmJobState =
    | Undetermined
    | Queued
    | QueuedHeld
    | Running
    | Suspended
    | Done
    | Failed
    | Aborted

  /** `DrmJobStatus`: what a status query reports. */
  datatype JobStatus = JobStatus(
    extJobId: string,
    jobState: DrmJobState,
    jobStatusMessage: Option<string>,
    exitCode: Option<int>,
    terminatingSignal: Option<string>,
    resourceUsage: Option<SortedMap.Entries>,
    cpuTime: Option<int>,
    startTime: Option<int>,
    submitTime: Option<int>,
    memory: Option<Memory>)

  /** A `DrmJobStatus.Builder` with only the job id and the state set. */
  function NewStatus(extJobId: string, state: DrmJobState): JobStatus {
    JobStatus(extJobId, state, None, None, None, None, None, None, None, None)
  }

  /** `jobStateMap`: ten program status codes and their states. */
  const JobStateMap: map<int, DrmJobState> :=
    map[Drmaa.UNDETERMINED := Undetermined]
      [QUEUED_ACTIVE := Queued]
      [SYSTEM_ON_HOLD := QueuedHeld]
      [USER_ON_HOLD := QueuedHeld]
      [Drmaa.RUNNING := Running]
      [SYSTEM_SUSPENDED := Suspended]
      [USER_SUSPENDED := Suspended]
      [USER_SYSTEM_SUSPENDED := Suspended]
      [Drmaa.DONE := Done]
      [Drmaa.FAILED := Failed]

  /** The table lookup of `requestDrmJobState`, UNDETERMINED when the code is
      not in the table. */
  function JobStateOf(code: int): (r: DrmJobState)
    ensures r == Queued <==> code == QUEUED_ACTIVE
    ensures r == QueuedHeld <==> code == SYSTEM_ON_HOLD || code == USER_ON_HOLD
    ensures r == Running <==> code == Drmaa.RUNNING
    ensures r == Suspended <==> code == SYSTEM_SUSPENDED || code == USER_SUSPENDED || code == USER_SYSTEM_SUSPENDED
    ensures r == Done <==> code == Drmaa.DONE
    ensures r == Failed <==> code == Drmaa.FAILED
    ensures r != Aborted
    ensures r == Undetermined <==> code == Drmaa.UNDETERMINED || code !in JobStateMap
  {
    if code in JobStateMap then JobStateMap[code] else Undetermined
  }

  /** The table holds exactly ten codes; user-and-system-on-hold is not one. */
  lemma JobStateMapShape()
    ensures |JobStateMap| == 10
    ensures USER_SYSTEM_ON_HOLD !in JobStateMap
    ensures JobStateOf(USER_SYSTEM_ON_HOLD) == Undetermined
  {
    var m: map<int, DrmJobState> := map[];
    assert Drmaa.UNDETERMINED !in m;
    m := m[Drmaa.UNDETERMINED := Undetermined];
    assert QUEUED_ACTIVE !in m;
    m := m[QUEUED_ACTIVE := Queued];
    assert SYSTEM_ON_HOLD !in m;
    m := m[SYSTEM_ON_HOLD := QueuedHeld];
    assert USER_ON_HOLD !in m;
    m := m[USER_ON_HOLD := QueuedHeld];
    assert Drmaa.RUNNING !in m;
    m := m[Drmaa.RUNNING := Running];
    assert SYSTEM_SUSPENDED !in m;
    m := m[SYSTEM_SUSPENDED := Suspended];
    assert USER_SUSPENDED !in m;
    m := m[USER_SUSPENDED := Suspended];
    assert USER_SYSTEM_SUSPENDED !in m;
    m := m[USER_SYSTEM_SUSPENDED := Suspended];
    assert Drmaa.DONE !in m;
    m := m[Drmaa.DONE := Done];
    assert Drmaa.FAILED !in m;
    m := m[Drmaa.FAILED := Failed];
    assert |m| == 10;
  }

  const SignaledPrefix: string := "hasSignaled, terminatingSignal="
  const CoreDumpMessage: string := "hasCoreDump"
  const UnclearMessage: string := "finished with unclear conditions"

  /** The if/else chain of `requestStatus` over a completion record: the
      first condition that holds, in the order exited, aborted, signaled,
      core dump, decides the state. Only the state, message, exit code and
      signal of the status change. */
  function ApplyCompletion(b: JobStatus, info: JobInfo): (r: JobStatus)
    ensures r.(jobState := b.jobState, jobStatusMessage := b.jobStatusMessage,
               exitCode := b.exitCode, terminatingSignal := b.terminatingSignal) == b
    ensures r.jobState == Done <==> info.hasExited && info.exitStatus == 0
    ensures r.jobState == Aborted <==> !info.hasExited && info.wasAborted
    ensures r.jobState == Undetermined <==>
      !info.hasExited && !info.wasAborted && !info.hasSignaled && !info.hasCoreDump
    ensures r.jobState == Failed <==>
      (info.hasExited && info.exitStatus != 0)
      || (!info.hasExited && !info.wasAborted && (info.hasSignaled || info.hasCoreDump))
    ensures r.jobState in {Done, Failed, Aborted, Undetermined}
    ensures r.exitCode == if info.hasExited then Some(info.exitStatus) else b.exitCode
    ensures r.terminatingSignal ==
      if !info.hasExited && !info.wasAborted && info.hasSignaled then Some(info.terminatingSignal)
      else b.terminatingSignal
    ensures r.jobStatusMessage ==
      if info.hasExited || info.wasAborted then b.jobStatusMessage
      else if info.hasSignaled then Some(SignaledPrefix + info.terminatingSignal)
      else if info.hasCoreDump then Some(CoreDumpMessage)
      else Some(UnclearMessage)
  {
    if info.hasExited then
      b.(exitCode := Some(info.exitStatus), jobState := if info.exitStatus == 0 then Done else Failed)
    else if info.wasAborted then
      b.(jobState := Aborted)
    else if info.hasSignaled then
      b.(jobState := Failed, jobStatusMessage := Some(SignaledPrefix + info.terminatingSignal),
         terminatingSignal := Some(info.terminatingSignal))
    else if info.hasCoreDump then
      b.(jobState := Failed, jobStatusMessage := Some(CoreDumpMessage))
    else
      b.(jobState := Undetermined, jobStatusMessage := Some(UnclearMessage))
  }

  /** The exceptions that `requestStatus` lets through; every other one
      (ExitTimeout among them) falls back to a program status query. */
  predicate Propagates(k: FaultKind) {
    k.InvalidJob? || k.NoActiveSession? || k.DrmCommunication? || k.Authorization?
    || k.IllegalArgument? || k.Internal?
  }

  /** The status `requestStatus` builds from a program status code. */
  function PolledStatus(extJobId: string, code: int): (r: JobStatus)
    ensures r.extJobId == extJobId && r.jobState == JobStateOf(code)
    ensures r.jobStatusMessage.None? && r.exitCode.None? && r.resourceUsage.None?
    ensures r.terminatingSignal.None? && r.cpuTime.None? && r.startTime.None?
    ensures r.submitTime.None? && r.memory.None?
  {
    NewStatus(extJobId, JobStateOf(code))
  }

  /** The degraded status of `getStatus` when anything went wrong. */
  function QueueErrorStatus(extJobId: string, message: string): (r: JobStatus)
    ensures r.extJobId == extJobId && r.jobState == Undetermined
    ensures r.jobStatusMessage == Some("job queue error: " + message)
    ensures r.exitCode.None? && r.terminatingSignal.None? && r.resourceUsage.None?
    ensures r.cpuTime.None? && r.startTime.None? && r.submitTime.None? && r.memory.None?
  {
    NewStatus(extJobId, Undetermined).(jobStatusMessage := Some("job queue error: " + message))
  }
}
