/**
 The worker-admission journal: the one durable document of a deployment
 transaction, its phases and the constant tables that govern them.
 Field shapes (regular expressions, lengths) and the constant header of the
 document are not represented; strings stand for values of the right shape.
 */
module AdmissionTypes {
  import opened Common

  datatype Phase =
    | Preparing
    | Aborting
    | ForwardApplying
    | ForwardVerified
    | WorkersPromoted
    | MarkerPromoted
    | ControlPromoted
    | Retiring
    | RollbackPreparing
    | RollbackApplying
    | RollbackVerified
    | RollbackWorkersPromoted
    | RollbackMarkerPromoted
    | RollbackControlPromoted
    | CandidateRestoreRequired
    | CandidateRestoring
    | CandidateRestored
    | Done

  datatype Outcome = Succeeded | RolledBack | Manual | Aborted

  datatype SecretRef = SecretRef(name: string, dockerSecretId: string, service: string, generation: string,
                                 purpose: string)

  datatype RuntimeSecret = RuntimeSecret(runtimeGeneration: string, secretName: string, dockerSecretId: string)

  datatype ServiceIdentity = ServiceIdentity(
    name: string, existed: bool, dockerServiceId: Option<string>, image: Option<string>, specDigest: Option<string>)

  datatype ControlIdentity = ControlIdentity(generation: string, image: string, manifestSha: string,
                                             secrets: seq<SecretRef>)

  datatype MarkerIdentity = MarkerIdentity(
    generation: string, image: string, configSha: string, cronSha: string, secrets: seq<SecretRef>)

  datatype FailedControl = FailedControl(generation: string, image: string, configSha: string, cronSha: string)

  datatype WorkerStage = Pending | Prepared | Applied | Verified

  datatype Worker = Worker(
    service: string, generation: nat, commit: string, image: string, targetSpecDigest: Option<string>,
    databaseSecret: SecretRef, admissionSecret: SecretRef, dockerServiceId: Option<string>, stage: WorkerStage)

  datatype AuthorityKind = ControlKind | MarkerKind | RuntimeKind
  datatype AuthorityState = Planned | Provisioning | Provisioned | Revoked

  datatype Authority = Authority(
    kind: AuthorityKind, service: string, generation: string, state: AuthorityState,
    controlImage: string, controlGeneration: string, operatorReference: string)

  datatype BaselineKind = Managed | LegacyNoControl

  datatype Baseline = Baseline(
    captured: bool, kind: BaselineKind, control: Option<ControlIdentity>, services: seq<ServiceIdentity>)

  datatype FailedForward = FailedForward(captured: bool, control: Option<FailedControl>, services: seq<ServiceIdentity>)

  datatype Forward = Forward(
    namespace: string, control: Option<ControlIdentity>, marker: Option<MarkerIdentity>, workers: seq<Worker>)

  datatype Rollback = Rollback(
    attempt: nat, namespace: Option<string>, markerGeneration: Option<string>,
    control: Option<ControlIdentity>, marker: Option<MarkerIdentity>, workers: seq<Worker>)

  datatype Promotion = Promotion(workers: bool, marker: bool, control: bool)

  datatype IdentityKind = SecretIdentity | ServiceIdentityKind | ManifestIdentity

  datatype Identity = Identity(
    kind: IdentityKind, dockerId: Option<string>, name: string, service: string,
    generation: string, purpose: string, specDigest: Option<string>)

  datatype Retirement = Retirement(id: string, identity: Identity)

  datatype JanitorService = JanitorService(name: string, dockerServiceId: string, generation: string,
                                           specDigest: string)

  datatype VisionMode = Safety | FinalSafety | Check | Reconcile
  datatype VisionState = VisionPlanned | VisionCreated | VisionTerminal | VisionRemoved

  datatype VisionJob = VisionJob(
    mode: VisionMode, name: string, image: string, redisSecret: SecretRef, databaseSecret: Option<SecretRef>,
    dockerServiceId: Option<string>, state: VisionState, exitCode: Option<nat>)

  datatype OperationKind =
    | RemovePreparedSecret
    | PromoteWorkers
    | PromoteMarker
    | PromoteControl
    | PromoteRollbackWorkers
    | PromoteRollbackMarker
    | PromoteRollbackControl

  datatype Operation = Operation(id: string, kind: OperationKind, targetPhase: Phase, identity: Identity)

  datatype AbortPlan = AbortPlan(reason: string, authorities: seq<Authority>)

  datatype LastError = LastError(code: string, phase: Phase)

  // The registered reconcile record: three one-shot service jobs and two secrets.

  datatype JobStage = BaselineJob | CurrentJob | RunJob
  datatype JobState = JobPlanned | JobLaunching | JobCreated | JobTerminal | JobRemoving | JobRemoved
  datatype RunOutcome = Reconciled | AlreadyAbsent | OtherOutcome

  datatype CapturePins = CapturePins(pinJson: string, pinSha: string, commands: set<string>)

  datatype JobResult =
    | CaptureResult(snapshot: string, credentials: string, capturePins: Option<CapturePins>)
    | RunResult(
        outcome: RunOutcome, pinSha: string, attemptedStreams: seq<string>, requestBytes: nat, requestSha: string,
        serviceId: string, taskId: string)

  datatype Job = Job(
    attemptId: string, input: string, specName: string, serviceId: Option<string>, taskId: Option<string>,
    exitCode: Option<nat>, state: JobState, result: Option<JobResult>, pinsSecretId: Option<string>)

  datatype SecretState = SecretCreating | SecretPresent | SecretRemoving | SecretRemoved
  datatype RegisteredSecret = RegisteredSecret(state: SecretState, id: Option<string>, name: string, sha: string)

  datatype Registered = Registered(
    baseline: Option<Job>, current: Option<Job>, run: Option<Job>,
    pins: Option<RegisteredSecret>, captureRead: Option<RegisteredSecret>)
  {
    function Get(stage: JobStage): Option<Job> {
      match stage
      case BaselineJob => baseline
      case CurrentJob => current
      case RunJob => run
    }

    function Put(stage: JobStage, job: Job): (r: Registered)
      ensures r.Get(stage) == Some(job)
      ensures forall other: JobStage :: other != stage ==> r.Get(other) == Get(other)
      ensures r.pins == pins && r.captureRead == captureRead
    {
      match stage
      case BaselineJob => this.(baseline := Some(job))
      case CurrentJob => this.(current := Some(job))
      case RunJob => this.(run := Some(job))
    }
  }

  datatype Document = Document(
    transactionId: string,
    targetCommit: string,
    phase: Phase,
    outcome: Option<Outcome>,
    runtimeRedis: map<string, RuntimeSecret>,
    authorities: seq<Authority>,
    preparedSecrets: seq<SecretRef>,
    baseline: Baseline,
    failedForward: FailedForward,
    forward: Forward,
    rollback: Rollback,
    promotion: Promotion,
    retirements: seq<Retirement>,
    retiringOutcome: Option<Outcome>,
    janitor: Option<JanitorService>,
    visionJobs: seq<VisionJob>,
    lastError: Option<LastError>,
    operation: Option<Operation>,
    abort: Option<AbortPlan>,
    registered: Option<Registered>)

  datatype MigrationState = MigrationPending | MigrationApplying | MigrationApplied

  /** The application-progress file that some commands read beside the journal. */
  datatype AppProgress = AppProgress(
    transactionId: string, targetCommit: string, attempted: seq<string>, migration: MigrationState)

  const APP_SERVICES: set<string> := {
    "vp-api-swarm", "vp-frontend-swarm", "vp-autoflow-api-swarm", "vp-event-outbox-relay-swarm",
    "vp-channel-agent-runner-swarm", "vp-ffmpeg-worker-go-swarm", "vp-ffmpeg-worker-gpu-swarm",
    "vp-vision-worker-swarm", "vp-youtube-publisher-swarm"
  }

  const RUNTIME_SERVICES: set<string> := {
    "vp-ffmpeg-worker-go-swarm", "vp-ffmpeg-worker-gpu-swarm", "vp-vision-worker-swarm", "vp-youtube-publisher-swarm"
  }

  const CONTROL_SERVICE := "vp-worker-control"
  const MARKER_SERVICE := "worker-redis-marker-control"

  function LegalTransitions(phase: Phase): set<Phase> {
    match phase
    case Preparing => {Aborting, ForwardApplying, RollbackPreparing}
    case Aborting => {Done}
    case ForwardApplying => {Aborting, ForwardVerified, RollbackPreparing}
    case ForwardVerified => {WorkersPromoted, RollbackPreparing}
    case WorkersPromoted => {MarkerPromoted}
    case MarkerPromoted => {ControlPromoted}
    case ControlPromoted => {Retiring}
    case Retiring => {Done}
    case RollbackPreparing => {Aborting, RollbackApplying, CandidateRestoreRequired}
    case RollbackApplying => {RollbackVerified, CandidateRestoreRequired}
    case RollbackVerified => {RollbackWorkersPromoted}
    case RollbackWorkersPromoted => {RollbackMarkerPromoted}
    case RollbackMarkerPromoted => {RollbackControlPromoted}
    case RollbackControlPromoted => {Retiring}
    case CandidateRestoreRequired => {CandidateRestoring, RollbackPreparing}
    case CandidateRestoring => {CandidateRestored, RollbackPreparing}
    case CandidateRestored => {ForwardVerified, RollbackPreparing}
    case Done => {}
  }

  /** The promotion flags each phase must carry; an aborted end carries none. */
  function ExpectedPromotion(phase: Phase, outcome: Option<Outcome>): Promotion {
    match phase
    case WorkersPromoted => Promotion(true, false, false)
    case MarkerPromoted => Promotion(true, true, false)
    case ControlPromoted => Promotion(true, true, true)
    case Retiring => Promotion(true, true, true)
    case RollbackWorkersPromoted => Promotion(true, false, false)
    case RollbackMarkerPromoted => Promotion(true, true, false)
    case RollbackControlPromoted => Promotion(true, true, true)
    case Done => if outcome == Some(Aborted) then Promotion(false, false, false) else Promotion(true, true, true)
    case _ => Promotion(false, false, false)
  }

  /** The phase an operation may be pending in. */
  function IntentPhase(kind: OperationKind): Phase {
    match kind
    case RemovePreparedSecret => Aborting
    case PromoteWorkers => ForwardVerified
    case PromoteMarker => WorkersPromoted
    case PromoteControl => MarkerPromoted
    case PromoteRollbackWorkers => RollbackVerified
    case PromoteRollbackMarker => RollbackWorkersPromoted
    case PromoteRollbackControl => RollbackMarkerPromoted
  }

  /** The phase its completion leads to. */
  function IntentTarget(kind: OperationKind): Phase {
    match kind
    case RemovePreparedSecret => Aborting
    case PromoteWorkers => WorkersPromoted
    case PromoteMarker => MarkerPromoted
    case PromoteControl => ControlPromoted
    case PromoteRollbackWorkers => RollbackWorkersPromoted
    case PromoteRollbackMarker => RollbackMarkerPromoted
    case PromoteRollbackControl => RollbackControlPromoted
  }

  function StageRank(stage: WorkerStage): nat {
    match stage
    case Pending => 0
    case Prepared => 1
    case Applied => 2
    case Verified => 3
  }
}
