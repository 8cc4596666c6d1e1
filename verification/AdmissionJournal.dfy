/**
 The registered pipeline's journal updates, the command language of the journal,
 and runs: any sequence of submissions, each accepted or refused.
 */
module AdmissionJournal {
  import opened Common
  import opened AdmissionTypes
  import opened AdmissionValidator
  import opened AdmissionCommands

  // ----- registered pipeline updates -----

  function WithRegistered(d: Document, r: Registered): Document {
    d.(registered := Some(r))
  }

  predicate PipelineOpen(d: Document) {
    d.phase.ForwardApplying? && d.operation.None? && d.registered.Some?
  }

  predicate BeforeApply(workers: seq<Worker>) {
    forall i :: 0 <= i < |workers| ==> workers[i].stage.Pending? || workers[i].stage.Prepared?
  }

  function IntentRead(d: Document, name: string, sha: string): UpdateResult {
    if !PipelineOpen(d) || d.registered.value.captureRead.Some? || d.registered.value.baseline.Some?
       || !d.baseline.captured || !BeforeApply(d.forward.workers) then Refused
    else Written(WithRegistered(d,
                                d.registered.value.(captureRead :=
                                                    Some(RegisteredSecret(SecretCreating, None, name, sha)))))
  }

  function BindRead(d: Document, reader: RegisteredSecret, id: string): UpdateResult {
    if d.registered.None? || d.registered.value.captureRead != Some(reader)
        || !reader.state.SecretCreating? then Refused
    else Written(WithRegistered(d,
                                d.registered.value.(captureRead :=
                                                    Some(reader.(state := SecretPresent, id := Some(id))))))
  }

  const GO_WORKER := "vp-ffmpeg-worker-go-swarm"

  /** Every worker but the Go one runs the one backend image of the target commit. */
  predicate OneBackendImage(workers: seq<Worker>, commit: string) {
    var i := First(workers, (w: Worker) => w.service != GO_WORKER, 0);
    && i < |workers|
    && EndsWith(workers[i].image, ":deploy-" + Slice(commit, 0, 12))
    && forall j :: 0 <= j < |workers| && workers[j].service != GO_WORKER ==> workers[j].image == workers[i].image
  }

  predicate OperatorSecretOk(control: ControlIdentity) {
    var only := Sole(control.secrets, (ref: SecretRef) => ref.purpose == "operator");
    only.Some? && control.secrets[only.value].name == "vp-wc-operator-" + control.generation
  }

  predicate CredentialsOk(d: Document) {
    d.forward.control.Some? && OperatorSecretOk(d.forward.control.value) && "control" in d.runtimeRedis
  }

  predicate ProgressAllowsBaseline(d: Document, progress: AppProgress) {
    && progress.transactionId == d.transactionId && progress.targetCommit == d.targetCommit
    && progress.migration.MigrationApplied?
    && forall s :: s in progress.attempted ==> s !in RUNTIME_SERVICES
  }

  /** The job finished, exited 0, left a usable result and was taken down. */
  predicate Finished(j: Option<Job>) {
    j.Some? && j.value.state.JobRemoved? && j.value.exitCode == Some(0) && j.value.result.Some?
  }

  function NewJob(attemptId: string, input: string, specName: string, pinsSecretId: Option<string>): Job {
    Job(attemptId, input, specName, None, None, None, JobPlanned, None, pinsSecretId)
  }

  predicate MayPrepareCapture(d: Document, stage: JobStage, progress: AppProgress) {
    && !stage.RunJob? && PipelineOpen(d)
    && d.registered.value.Get(stage).None? && d.baseline.captured
    && d.registered.value.captureRead.Some? && d.registered.value.captureRead.value.state.SecretPresent?
    && |d.forward.workers| == 4
    && OneBackendImage(d.forward.workers, d.targetCommit)
    && CredentialsOk(d)
    && (if stage.BaselineJob? then BeforeApply(d.forward.workers) && ProgressAllowsBaseline(d, progress)
        else AllVerified(d.forward.workers) && Finished(d.registered.value.baseline))
  }

  function PrepareCapture(d: Document, stage: JobStage, attemptId: string, input: string, specName: string,
                          progress: AppProgress): UpdateResult {
    if !MayPrepareCapture(d, stage, progress) then Refused
    else Written(WithRegistered(d, d.registered.value.Put(stage, NewJob(attemptId, input, specName, None))))
  }

  function IntentPins(d: Document, name: string): UpdateResult {
    if !PipelineOpen(d) || d.registered.value.pins.Some? || !Finished(d.registered.value.current) then Refused
    else
      var result := d.registered.value.current.value.result.value;
      if !result.CaptureResult? || result.capturePins.None? then Refused
      else Written(WithRegistered(d,
                                  d.registered.value.(pins := Some(RegisteredSecret(SecretCreating, None, name,
                                                                                    result.capturePins.value.pinSha)))))
  }

  function BindPins(d: Document, pins: RegisteredSecret, id: string): UpdateResult {
    if d.registered.None? || d.registered.value.pins != Some(pins) || !pins.state.SecretCreating?
       || d.registered.value.current.None? then Refused
    else
      var current := d.registered.value.current.value.(pinsSecretId := Some(id));
      Written(WithRegistered(d, d.registered.value.(pins := Some(pins.(state := SecretPresent, id := Some(id))),
                                                    current := Some(current))))
  }

  function PrepareRun(d: Document, input: string, specName: string): UpdateResult {
    if !PipelineOpen(d) || d.registered.value.run.Some? || !Finished(d.registered.value.current)
       || d.registered.value.current.value.pinsSecretId.None? then Refused
    else
      var current := d.registered.value.current.value;
      Written(WithRegistered(d, d.registered.value.Put(RunJob,
                                                       NewJob(current.attemptId, input, specName,
                                                              current.pinsSecretId))))
  }

  /** The one place a planned job is consumed, before its service is created. */
  function ConsumeLaunch(d: Document, stage: JobStage): UpdateResult {
    if !PipelineOpen(d) || d.registered.value.Get(stage).None?
        || !d.registered.value.Get(stage).value.state.JobPlanned? then Refused
    else Written(WithRegistered(d, d.registered.value.Put(stage,
                                                          d.registered.value.Get(stage).value.(state := JobLaunching))))
  }

  predicate StillIs(d: Document, stage: JobStage, job: Job) {
    d.registered.Some? && d.registered.value.Get(stage) == Some(job)
  }

  function BindLaunch(d: Document, stage: JobStage, job: Job, serviceId: string): UpdateResult {
    if !StillIs(d, stage, job) || !job.state.JobLaunching? then Refused
    else Written(WithRegistered(d,
                                d.registered.value.Put(stage, job.(serviceId := Some(serviceId), state := JobCreated))))
  }

  function ObserveJob(d: Document, stage: JobStage, job: Job, serviceId: string, taskId: Option<string>,
                      code: Option<nat>, result: Option<JobResult>): UpdateResult
  {
    if !StillIs(d, stage, job) || !(job.state.JobLaunching? || job.state.JobCreated? || job.state.JobTerminal?) then
        Refused
    else if (job.serviceId.Some? && job.serviceId != Some(serviceId)) || (job.taskId.Some? && job.taskId != taskId)
            || (taskId.None? && code.Some?) then Refused
    else
      var seen := job.(serviceId := Some(serviceId), taskId := taskId, exitCode := code,
                       state := if code.None? then JobCreated else JobTerminal,
                       result := if code == Some(0) then result else job.result);
      Written(WithRegistered(d, d.registered.value.Put(stage, seen)))
  }

  /** Finds the service of an interrupted launch, only to stop it. */
  function DiscoverJob(d: Document, stage: JobStage, job: Job, serviceId: string): UpdateResult {
    if !StillIs(d, stage, job) || !job.state.JobLaunching? || job.serviceId.Some? then Refused
    else Written(WithRegistered(d,
                                d.registered.value.Put(stage, job.(serviceId := Some(serviceId), state := JobCreated))))
  }

  function StartRemoval(d: Document, stage: JobStage, job: Job): UpdateResult {
    if !StillIs(d, stage, job) || job.state.JobRemoved? || job.state.JobRemoving?
       || (job.state.JobLaunching? && job.serviceId.None?) then Refused
    else Written(WithRegistered(d, d.registered.value.Put(stage, job.(state := JobRemoving))))
  }

  function FinishRemoval(d: Document, stage: JobStage, job: Job): UpdateResult {
    if !StillIs(d, stage, job) || !job.state.JobRemoving? then Refused
    else Written(WithRegistered(d, d.registered.value.Put(stage, job.(state := JobRemoved))))
  }

  predicate JobsGone(r: Registered) {
    JobGone(r.baseline) && JobGone(r.current) && JobGone(r.run)
  }

  function RemoveRegisteredSecret(d: Document, pinsSecret: bool, secret: RegisteredSecret): UpdateResult {
    if d.registered.None? || !JobsGone(d.registered.value) || secret.state.SecretCreating? then Refused
    else if (if pinsSecret then d.registered.value.pins else d.registered.value.captureRead) != Some(secret) then
        Refused
    else if secret.state.SecretRemoved? then Unchanged
    else if pinsSecret then Written(WithRegistered(d,
                                                   d.registered.value.(pins := Some(secret.(state := SecretRemoved)))))
    else Written(WithRegistered(d, d.registered.value.(captureRead := Some(secret.(state := SecretRemoved)))))
  }

  // ----- the command language -----

  datatype PipelineCommand =
    | CmdIntentRead(name: string, sha: string)
    | CmdBindRead(reader: RegisteredSecret, id: string)
    | CmdPrepareCapture(stage: JobStage, attemptId: string, input: string, specName: string, progress: AppProgress)
    | CmdIntentPins(pinsName: string)
    | CmdBindPins(pins: RegisteredSecret, pinsId: string)
    | CmdPrepareRun(runInput: string, runSpec: string)
    | CmdConsumeLaunch(stage: JobStage)
    | CmdBindLaunch(stage: JobStage, job: Job, serviceId: string)
    | CmdObserveJob(stage: JobStage, job: Job, serviceId: string, taskId: Option<string>, code: Option<nat>,
                    result: Option<JobResult>)
    | CmdDiscoverJob(stage: JobStage, job: Job, serviceId: string)
    | CmdStartRemoval(stage: JobStage, job: Job)
    | CmdFinishRemoval(stage: JobStage, job: Job)
    | CmdRemoveSecret(pinsSecret: bool, secret: RegisteredSecret)

  function UpdatePipeline(d: Document, c: PipelineCommand): UpdateResult {
    match c
    case CmdIntentRead(name, sha) => IntentRead(d, name, sha)
    case CmdBindRead(reader, id) => BindRead(d, reader, id)
    case CmdPrepareCapture(stage, attemptId, input, specName, progress) =>
      PrepareCapture(d, stage, attemptId, input, specName, progress)
    case CmdIntentPins(name) => IntentPins(d, name)
    case CmdBindPins(pins, id) => BindPins(d, pins, id)
    case CmdPrepareRun(input, specName) => PrepareRun(d, input, specName)
    case CmdConsumeLaunch(stage) => ConsumeLaunch(d, stage)
    case CmdBindLaunch(stage, job, serviceId) => BindLaunch(d, stage, job, serviceId)
    case CmdObserveJob(stage, job, serviceId, taskId, code, result) =>
      ObserveJob(d, stage, job, serviceId, taskId, code, result)
    case CmdDiscoverJob(stage, job, serviceId) => DiscoverJob(d, stage, job, serviceId)
    case CmdStartRemoval(stage, job) => StartRemoval(d, stage, job)
    case CmdFinishRemoval(stage, job) => FinishRemoval(d, stage, job)
    case CmdRemoveSecret(pinsSecret, secret) => RemoveRegisteredSecret(d, pinsSecret, secret)
  }

  /** Commands that may move the phase. */
  datatype PhaseCommand =
    | CmdTransition(target: Phase, outcome: Option<Outcome>)
    | CmdCompleteIntent(operationId: string)
    | CmdBeginAbort(reason: string, abortProgress: Option<AppProgress>)
    | CmdFinishAbort
    | CmdResumeLegacyForward(transactionId: string, commit: string, progress: AppProgress)

  function UpdatePhase(d: Document, c: PhaseCommand): UpdateResult {
    match c
    case CmdTransition(target, outcome) => Transition(d, target, outcome)
    case CmdCompleteIntent(operationId) => CompleteIntent(d, operationId)
    case CmdBeginAbort(reason, progress) => BeginAbort(d, reason, progress)
    case CmdFinishAbort => Transition(d, Done, Some(Aborted))
    case CmdResumeLegacyForward(transactionId, commit, progress) =>
      ResumeLegacyForward(d, transactionId, commit, progress)
  }

  /** Announced operations and the steps of an abort. */
  datatype OperationCommand =
    | CmdIntent(kind: OperationKind, identity: Identity, operationId: string)
    | CmdIntentSecretRemoval(dockerSecretId: string, operationId: string)
    | CmdCompleteSecretRemoval(operationId: string)
    | CmdCompleteAbortAuthority(authorityKind: AuthorityKind, service: string, generation: string)

  function UpdateOperation(d: Document, c: OperationCommand): UpdateResult {
    match c
    case CmdIntent(kind, identity, operationId) => Intent(d, kind, identity, operationId)
    case CmdIntentSecretRemoval(dockerSecretId, operationId) => IntentSecretRemoval(d, dockerSecretId, operationId)
    case CmdCompleteSecretRemoval(operationId) => CompleteSecretRemoval(d, operationId)
    case CmdCompleteAbortAuthority(kind, service, generation) => CompleteAbortAuthority(d, kind, service, generation)
  }

  /** Authorities, secrets and the janitor service. */
  datatype ResourceCommand =
    | CmdRecordAuthorityIntent(authority: Authority)
    | CmdMarkAuthority(kind: AuthorityKind, service: string, generation: string, provisioned: bool)
    | CmdRecordPreparedSecret(ref: SecretRef)
    | CmdRecordRuntimeSecret(role: string, secret: RuntimeSecret)
    | CmdRecordJanitor(janitor: JanitorService)
    | CmdClearJanitor(janitor: JanitorService)
    | CmdQueueRetirement(retirement: Retirement)
    | CmdCompleteRetirement(retirementId: string)

  function UpdateResource(d: Document, c: ResourceCommand): UpdateResult {
    match c
    case CmdRecordAuthorityIntent(a) => RecordAuthorityIntent(d, a)
    case CmdMarkAuthority(kind, service, generation, provisioned) =>
      MarkAuthority(d, kind, service, generation, provisioned)
    case CmdRecordPreparedSecret(ref) => RecordPreparedSecret(d, ref)
    case CmdRecordRuntimeSecret(role, secret) => RecordRuntimeSecret(d, role, secret)
    case CmdRecordJanitor(service) => RecordJanitor(d, service)
    case CmdClearJanitor(service) => ClearJanitor(d, service)
    case CmdQueueRetirement(retirement) => QueueRetirement(d, retirement)
    case CmdCompleteRetirement(id) => CompleteRetirement(d, id)
  }

  /** Captures, selections and worker plans: everything a replay must find unchanged. */
  datatype PlanCommand =
    | CmdCaptureBaseline(kind: BaselineKind, control: Option<ControlIdentity>, services: seq<ServiceIdentity>)
    | CmdCaptureFailedForward(failedControl: Option<FailedControl>, services: seq<ServiceIdentity>)
    | CmdAllocateRollback
    | CmdRecordControl(direction: Direction, selected: ControlIdentity)
    | CmdRecordMarker(direction: Direction, marker: MarkerIdentity)
    | CmdRecordWorkerPlan(direction: Direction, plan: Worker)
    | CmdAdvanceWorkerStage(direction: Direction, service: string, generation: nat, expected: WorkerStage,
                            target: WorkerStage,
                            serviceId: Option<string>, digest: Option<string>)

  function UpdatePlan(d: Document, c: PlanCommand): UpdateResult {
    match c
    case CmdCaptureBaseline(kind, control, services) => CaptureBaseline(d, kind, control, services)
    case CmdCaptureFailedForward(control, services) => CaptureFailedForward(d, control, services)
    case CmdAllocateRollback => AllocateRollback(d)
    case CmdRecordControl(direction, control) => RecordControl(d, direction, control)
    case CmdRecordMarker(direction, marker) => RecordMarker(d, direction, marker)
    case CmdRecordWorkerPlan(direction, plan) => RecordWorkerPlan(d, direction, plan)
    case CmdAdvanceWorkerStage(direction, service, generation, expected, target, serviceId, digest) =>
      AdvanceWorkerStage(d, direction, service, generation, expected, target, serviceId, digest)
  }

  datatype VisionCommand =
    | CmdPrepareVisionJob(mode: VisionMode, name: string, image: string, database: Option<SecretRef>)
    | CmdRecordVisionService(mode: VisionMode, serviceId: string)
    | CmdRecordVisionTerminal(mode: VisionMode, exitCode: nat)
    | CmdCompleteVisionRemoval(mode: VisionMode)
    | CmdAbortVisionRemoval(mode: VisionMode)

  function UpdateVision(d: Document, c: VisionCommand): UpdateResult {
    match c
    case CmdPrepareVisionJob(mode, name, image, database) => PrepareVisionJob(d, mode, name, image, database)
    case CmdRecordVisionService(mode, serviceId) => RecordVisionService(d, mode, serviceId)
    case CmdRecordVisionTerminal(mode, exitCode) => RecordVisionTerminal(d, mode, exitCode)
    case CmdCompleteVisionRemoval(mode) => CompleteVisionRemoval(d, mode)
    case CmdAbortVisionRemoval(mode) => AbortVisionRemoval(d, mode)
  }

  datatype Command =
    | OfPhase(phaseCommand: PhaseCommand)
    | OfOperation(operationCommand: OperationCommand)
    | OfResource(resourceCommand: ResourceCommand)
    | OfPlan(planCommand: PlanCommand)
    | OfVision(visionCommand: VisionCommand)
    | OfPipeline(pipelineCommand: PipelineCommand)

  function Update(d: Document, c: Command): UpdateResult {
    match c
    case OfPhase(p) => UpdatePhase(d, p)
    case OfOperation(o) => UpdateOperation(d, o)
    case OfResource(r) => UpdateResource(d, r)
    case OfPlan(p) => UpdatePlan(d, p)
    case OfVision(v) => UpdateVision(d, v)
    case OfPipeline(p) => UpdatePipeline(d, p)
  }

  // ----- submissions and runs -----

  /** The file on disk: a document and the revision that guards it. */
  datatype Journal = Journal(revision: nat, document: Document)

  datatype Submission = Submission(revision: nat, command: Command)

  /** Updater, then validator. None is a refusal. */
  function Apply(d: Document, c: Command): Option<Document> {
    match Update(d, c)
    case Refused => None
    case Unchanged => Some(d)
    case Written(draft) => if Valid(draft) then Some(draft) else None
  }

  /** Compare-and-swap on the revision the caller has seen; a write takes the next revision. */
  function Submit(j: Journal, s: Submission): Option<Journal> {
    if s.revision != j.revision then None
    else
      match Update(j.document, s.command)
      case Refused => None
      case Unchanged => Some(j)
      case Written(draft) => if Valid(draft) then Some(Journal(j.revision + 1, draft)) else None
  }

  /** A refused submission, or one whose process died before the write, leaves the journal as it was. */
  function After(j: Journal, s: Submission): Journal {
    var next := Submit(j, s);
    if next.Some? then next.value else j
  }

  function Run(j: Journal, submissions: seq<Submission>): Journal
    decreases |submissions|
  {
    if submissions == [] then j else Run(After(j, submissions[0]), submissions[1..])
  }

  /** The document a new transaction starts from. */
  function Begin(transactionId: string, targetCommit: string, namespace: string, kind: BaselineKind): Document {
    Document(transactionId, targetCommit, Preparing, None, map[], [], [],
             Baseline(false, kind, None, []), FailedForward(false, None, []),
             Forward(namespace, None, None, []), Rollback(0, None, None, None, None, []),
             Promotion(false, false, false), [], None, None, [], None, None, None,
             Some(Registered(None, None, None, None, None)))
  }
}
