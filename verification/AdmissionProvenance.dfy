/**
 Where the facts of a journal come from. Over every run each recorded fact was submitted by
 a command that was written: captures and selections are the given ones, a worker carries
 the plan and the ids it was advanced with, an authority went through its marks, a vision
 job exited as reported, and the operation, the abort and the outcome are those asked for.
 */
module AdmissionProvenance {
  import opened Common
  import opened AdmissionTypes
  import opened AdmissionValidator
  import opened AdmissionCommands
  import opened AdmissionJournal
  import opened AdmissionInvariant

  // ----- captures, selections and workers -----

  predicate AdvanceTold(w: Worker, direction: Direction, expected: WorkerStage, target: WorkerStage,
                        service: Option<string>, digest: Option<string>, told: set<Command>)
  {
    OfPlan(CmdAdvanceWorkerStage(direction, w.service, w.generation, expected, target, service, digest)) in told
  }

  /** The worker as it was planned, and the advances to its stage with its ids. */
  predicate WorkerTold(w: Worker, direction: Direction, told: set<Command>) {
    && OfPlan(CmdRecordWorkerPlan(direction, w.(stage := Pending, dockerServiceId := None, targetSpecDigest := None)))
       in told
    && (w.stage.Pending? || w.stage.Prepared? ==> w.dockerServiceId.None? && w.targetSpecDigest.None?)
    && (!w.stage.Pending? ==> AdvanceTold(w, direction, Pending, Prepared, None, None, told))
    && (IsApplied(w) ==> AdvanceTold(w, direction, Prepared, Applied, w.dockerServiceId, w.targetSpecDigest, told))
    && (w.stage.Verified? ==> AdvanceTold(w, direction, Applied, Verified, w.dockerServiceId, w.targetSpecDigest, told))
  }

  predicate WorkersTold(workers: seq<Worker>, direction: Direction, told: set<Command>) {
    forall i :: 0 <= i < |workers| ==> WorkerTold(workers[i], direction, told)
  }

  predicate SelectionTold(control: Option<ControlIdentity>, marker: Option<MarkerIdentity>, direction: Direction,
                          told: set<Command>)
  {
    && (control.Some? ==> OfPlan(CmdRecordControl(direction, control.value)) in told)
    && (marker.Some? ==> OfPlan(CmdRecordMarker(direction, marker.value)) in told)
  }

  predicate PlanTold(d: Document, told: set<Command>) {
    && (d.baseline.captured ==>
          OfPlan(CmdCaptureBaseline(d.baseline.kind, d.baseline.control, d.baseline.services)) in told)
    && (d.failedForward.captured ==>
          OfPlan(CmdCaptureFailedForward(d.failedForward.control, d.failedForward.services)) in told)
    && SelectionTold(d.forward.control, d.forward.marker, ForwardDirection, told)
    && SelectionTold(d.rollback.control, d.rollback.marker, RollbackDirection, told)
    && WorkersTold(d.forward.workers, ForwardDirection, told)
    && WorkersTold(d.rollback.workers, RollbackDirection, told)
    && (d.rollback.attempt > 0 ==>
          && OfPlan(CmdAllocateRollback) in told
          && d.rollback.namespace == Some(AllocatedNamespace(d.transactionId))
          && d.rollback.markerGeneration == Some(AllocatedMarker(d.transactionId)))
  }

  // ----- authorities, secrets and retirements -----

  predicate AuthorityTold(a: Authority, told: set<Command>) {
    && OfResource(CmdRecordAuthorityIntent(a.(state := Planned))) in told
    && (a.state.Provisioning? || a.state.Provisioned? ==>
          OfResource(CmdMarkAuthority(a.kind, a.service, a.generation, false)) in told)
    && (a.state.Provisioned? ==> OfResource(CmdMarkAuthority(a.kind, a.service, a.generation, true)) in told)
    && (a.state.Revoked? ==> OfOperation(CmdCompleteAbortAuthority(a.kind, a.service, a.generation)) in told)
  }

  predicate AuthoritiesTold(authorities: seq<Authority>, told: set<Command>) {
    forall i :: 0 <= i < |authorities| ==> AuthorityTold(authorities[i], told)
  }

  predicate SecretsTold(secrets: seq<SecretRef>, told: set<Command>) {
    forall ref :: ref in secrets ==> OfResource(CmdRecordPreparedSecret(ref)) in told
  }

  predicate ResourceTold(d: Document, told: set<Command>) {
    && AuthoritiesTold(d.authorities, told)
    && SecretsTold(d.preparedSecrets, told)
    && (forall role :: role in d.runtimeRedis ==>
          OfResource(CmdRecordRuntimeSecret(role, d.runtimeRedis[role])) in told)
    && (d.janitor.Some? ==> OfResource(CmdRecordJanitor(d.janitor.value)) in told)
    && (forall r :: r in d.retirements ==> OfResource(CmdQueueRetirement(r)) in told)
  }

  // ----- vision jobs -----

  /** The secret of the role's runtime as a reference. */
  function RuntimeRef(role: string, s: RuntimeSecret): SecretRef {
    SecretRef(s.secretName, s.dockerSecretId, "worker-redis-runtime", s.runtimeGeneration, role)
  }

  /** The secret a safety job reads the database with: recorded for this transaction's cutover and for this mode. */
  predicate DatabaseTold(job: VisionJob, transactionId: string, told: set<Command>) {
    job.databaseSecret.Some? ==>
      && (job.mode.Safety? || job.mode.FinalSafety?)
      && var ref := job.databaseSecret.value;
         && OfResource(CmdRecordPreparedSecret(ref)) in told
         && ref == SecretRef(ref.name, ref.dockerSecretId, "vision-cutover", transactionId,
                             if job.mode.FinalSafety? then "final-safety-database" else "safety-database")
  }

  /** The Redis secret of a reconciling job is the control role's, that of any other the watcher's. */
  predicate RedisTold(job: VisionJob, runtimes: map<string, RuntimeSecret>) {
    var role := if job.mode.Reconcile? then "control" else "watcher";
    role in runtimes && job.redisSecret == RuntimeRef(role, runtimes[role])
  }

  predicate JobTold(job: VisionJob, d: Document, told: set<Command>) {
    && OfVision(CmdPrepareVisionJob(job.mode, job.name, job.image, job.databaseSecret)) in told
    && RedisTold(job, d.runtimeRedis) && DatabaseTold(job, d.transactionId, told)
    && (job.dockerServiceId.Some? ==> OfVision(CmdRecordVisionService(job.mode, job.dockerServiceId.value)) in told)
    && (job.exitCode.Some? ==>
          || OfVision(CmdRecordVisionTerminal(job.mode, job.exitCode.value)) in told
          || (job.exitCode == Some(255) && OfVision(CmdAbortVisionRemoval(job.mode)) in told))
  }

  predicate VisionTold(d: Document, told: set<Command>) {
    forall i :: 0 <= i < |d.visionJobs| ==> JobTold(d.visionJobs[i], d, told)
  }

  // ----- the operation, the abort and the end -----

  predicate OperationTold(o: Option<Operation>, told: set<Command>) {
    o.Some? ==>
      if o.value.kind.RemovePreparedSecret? then
        && o.value.identity.dockerId.Some?
        && OfOperation(CmdIntentSecretRemoval(o.value.identity.dockerId.value, o.value.id)) in told
      else
        && OfOperation(CmdIntent(o.value.kind, o.value.identity, o.value.id)) in told
        && o.value.targetPhase == IntentTarget(o.value.kind)
  }

  ghost predicate AbortTold(reason: string, told: set<Command>) {
    exists progress :: OfPhase(CmdBeginAbort(reason, progress)) in told
  }

  ghost predicate ResumeTold(id: string, commit: string, told: set<Command>) {
    exists progress :: OfPhase(CmdResumeLegacyForward(id, commit, progress)) in told
  }

  predicate RetiringTold(outcome: Outcome, told: set<Command>) {
    || OfPhase(CmdTransition(Retiring, Some(outcome))) in told
    || OfPhase(CmdTransition(Retiring, None)) in told
  }

  ghost predicate PhaseTold(d: Document, told: set<Command>) {
    && OperationTold(d.operation, told)
    && (d.abort.Some? ==> AbortTold(d.abort.value.reason, told))
    && (d.lastError.Some? ==>
          && d.lastError.value.phase in {Preparing, ForwardApplying, RollbackPreparing}
          && (|| AbortTold(d.lastError.value.code, told)
              || (d.lastError.value.code == "legacy_forward_resumed"
                  && ResumeTold(d.transactionId, d.targetCommit, told))))
    && (d.retiringOutcome.Some? ==> RetiringTold(d.retiringOutcome.value, told))
    && (d.outcome.Some? ==>
          || OfPhase(CmdTransition(Done, d.outcome)) in told
          || (d.outcome == Some(Aborted) && OfPhase(CmdFinishAbort) in told))
  }

  // ----- the pipeline record -----

  /** Progress of this transaction that is past its migration and has not touched a runtime worker. */
  predicate ReadyToCapture(id: string, commit: string, progress: AppProgress) {
    && progress == AppProgress(id, commit, progress.attempted, MigrationApplied)
    && forall s :: s in progress.attempted ==> s !in RUNTIME_SERVICES
  }

  /** The capture was asked for, that of the baseline with progress that allows it. */
  ghost predicate CaptureTold(id: string, commit: string, stage: JobStage, attempt: string, input: string,
                              spec: string, told: set<Command>)
  {
    exists progress ::
      && OfPipeline(CmdPrepareCapture(stage, attempt, input, spec, progress)) in told
      && (stage.BaselineJob? ==> ReadyToCapture(id, commit, progress))
  }

  ghost predicate PlannedTold(id: string, commit: string, j: Job, stage: JobStage, told: set<Command>) {
    if stage.RunJob? then OfPipeline(CmdPrepareRun(j.input, j.specName)) in told
    else CaptureTold(id, commit, stage, j.attemptId, j.input, j.specName, told)
  }

  ghost predicate RemovalTold(stage: JobStage, told: set<Command>) {
    exists job :: OfPipeline(CmdStartRemoval(stage, job)) in told
  }

  ghost predicate RemovedTold(stage: JobStage, told: set<Command>) {
    exists job :: OfPipeline(CmdFinishRemoval(stage, job)) in told
  }

  ghost predicate StageTold(id: string, commit: string, r: Registered, stage: JobStage, told: set<Command>) {
    r.Get(stage).Some? ==>
      && PlannedTold(id, commit, r.Get(stage).value, stage, told)
      && (r.Get(stage).value.state.JobLaunching? ==> OfPipeline(CmdConsumeLaunch(stage)) in told)
      && (r.Get(stage).value.state.JobRemoving? || r.Get(stage).value.state.JobRemoved? ==> RemovalTold(stage, told))
      && (r.Get(stage).value.state.JobRemoved? ==> RemovedTold(stage, told))
  }

  ghost predicate ReaderBound(id: string, told: set<Command>) {
    exists reader :: OfPipeline(CmdBindRead(reader, id)) in told
  }

  ghost predicate PinsBound(id: string, told: set<Command>) {
    exists pins :: OfPipeline(CmdBindPins(pins, id)) in told
  }

  /** The digest of the pins a finished capture returned. */
  predicate PinsOf(j: Option<Job>, sha: string) {
    && Finished(j) && j.value.result.value.CaptureResult?
    && j.value.result.value.capturePins.Some? && j.value.result.value.capturePins.value.pinSha == sha
  }

  ghost predicate PipelineTold(id: string, commit: string, r: Registered, told: set<Command>) {
    && StageTold(id, commit, r, BaselineJob, told) && StageTold(id, commit, r, CurrentJob, told)
    && StageTold(id, commit, r, RunJob, told)
    && (r.captureRead.Some? ==>
          && OfPipeline(CmdIntentRead(r.captureRead.value.name, r.captureRead.value.sha)) in told
          && (r.captureRead.value.id.Some? ==> ReaderBound(r.captureRead.value.id.value, told)))
    && (r.pins.Some? ==>
          && OfPipeline(CmdIntentPins(r.pins.value.name)) in told
          && PinsOf(r.current, r.pins.value.sha) && (r.pins.value.state.SecretCreating? ==> r.pins.value.id.None?)
          && (r.pins.value.id.Some? ==> PinsBound(r.pins.value.id.value, told)))
    && (r.current.Some? && r.current.value.pinsSecretId.Some? ==>
          r.pins.Some? && r.pins.value.id == r.current.value.pinsSecretId)
    && (r.run.Some? ==>
          && r.current.Some? && r.run.value.attemptId == r.current.value.attemptId
          && r.run.value.pinsSecretId.Some? && r.run.value.pinsSecretId == r.current.value.pinsSecretId)
  }

  /** Every fact of the document was told. */
  ghost predicate Told(d: Document, told: set<Command>) {
    && PlanTold(d, told) && ResourceTold(d, told) && VisionTold(d, told) && PhaseTold(d, told)
    && d.registered.Some? && PipelineTold(d.transactionId, d.targetCommit, d.registered.value, told)
  }

  // ----- more commands told -----

  lemma WorkersToldMore(workers: seq<Worker>, direction: Direction, told: set<Command>, more: set<Command>)
    requires WorkersTold(workers, direction, told) && told <= more
    ensures WorkersTold(workers, direction, more)
  {
  }

  lemma PlanToldMore(d: Document, told: set<Command>, more: set<Command>)
    requires PlanTold(d, told) && told <= more
    ensures PlanTold(d, more)
  {
    WorkersToldMore(d.forward.workers, ForwardDirection, told, more);
    WorkersToldMore(d.rollback.workers, RollbackDirection, told, more);
    hide WorkersTold;
  }

  lemma ResourceToldMore(d: Document, told: set<Command>, more: set<Command>)
    requires ResourceTold(d, told) && told <= more
    ensures ResourceTold(d, more)
  {
  }

  lemma VisionToldMore(d: Document, told: set<Command>, more: set<Command>)
    requires VisionTold(d, told) && told <= more
    ensures VisionTold(d, more)
  {
    hide RedisTold;
  }

  lemma PhaseToldMore(d: Document, told: set<Command>, more: set<Command>)
    requires PhaseTold(d, told) && told <= more
    ensures PhaseTold(d, more)
  {
  }

  lemma StageToldMore(id: string, commit: string, r: Registered, stage: JobStage, told: set<Command>,
                      more: set<Command>)
    requires StageTold(id, commit, r, stage, told) && told <= more
    ensures StageTold(id, commit, r, stage, more)
  {
  }

  lemma PipelineToldMore(id: string, commit: string, r: Registered, told: set<Command>, more: set<Command>)
    requires PipelineTold(id, commit, r, told) && told <= more
    ensures PipelineTold(id, commit, r, more)
  {
    StageToldMore(id, commit, r, BaselineJob, told, more);
    StageToldMore(id, commit, r, CurrentJob, told, more);
    StageToldMore(id, commit, r, RunJob, told, more);
    hide StageTold;
    hide PinsOf;
  }

  lemma ToldMore(d: Document, told: set<Command>, more: set<Command>)
    requires Told(d, told) && told <= more
    ensures Told(d, more)
  {
    PlanToldMore(d, told, more);
    ResourceToldMore(d, told, more);
    VisionToldMore(d, told, more);
    PhaseToldMore(d, told, more);
    PipelineToldMore(d.transactionId, d.targetCommit, d.registered.value, told, more);
    hide PlanTold;
    hide ResourceTold;
    hide VisionTold;
    hide PhaseTold;
    hide PipelineTold;
  }

  // ----- one written command -----

  lemma AdvancedTold(w: Worker, direction: Direction, expected: WorkerStage, target: WorkerStage,
                     service: Option<string>, digest: Option<string>, told: set<Command>)
    requires WorkerTold(w, direction, told) && Successor(expected) == Some(target) && w.stage == expected
    requires AdvanceTold(w, direction, expected, target, service, digest, told)
    requires AdvancedWorker(w, target, service, digest).Some?
    ensures WorkerTold(AdvancedWorker(w, target, service, digest).value, direction, told)
  {
    var n := AdvancedWorker(w, target, service, digest).value;
    assert n.(stage := Pending, dockerServiceId := None, targetSpecDigest := None)
           == w.(stage := Pending, dockerServiceId := None, targetSpecDigest := None);
  }

  lemma PlanStep(d: Document, c: PlanCommand, told: set<Command>)
    requires PlanTold(d, told) && OfPlan(c) in told && UpdatePlan(d, c).Written?
    ensures PlanTold(UpdatePlan(d, c).document, told)
  {
    hide ControlOk;
    hide MarkerOk;
    hide ServiceIdentitiesOk;
    hide AllocatedNamespace;
    hide AllocatedMarker;
    hide WorkersTold;
    match c {
      case CmdRecordWorkerPlan(direction, plan) =>
        AddedTold(d, direction, plan, told);
      case CmdAdvanceWorkerStage(direction, service, generation, expected, target, serviceId, digest) =>
        StagesTold(d, c, told);
      case _ =>
    }
    hide WorkerOk;
    hide AdvancedWorker;
  }

  lemma AddedTold(d: Document, direction: Direction, plan: Worker, told: set<Command>)
    requires WorkersTold(WorkersOf(d, direction), direction, told)
    requires OfPlan(CmdRecordWorkerPlan(direction, plan)) in told
    requires RecordWorkerPlan(d, direction, plan).Written?
    ensures WorkersTold(WorkersOf(d, direction) + [plan], direction, told)
  {
    assert plan.(stage := Pending, dockerServiceId := None, targetSpecDigest := None) == plan;
    assert WorkerTold(plan, direction, told);
    hide WorkerTold;
  }

  lemma StagesTold(d: Document, c: PlanCommand, told: set<Command>)
    requires c.CmdAdvanceWorkerStage? && WorkersTold(WorkersOf(d, c.direction), c.direction, told)
    requires OfPlan(c) in told && UpdatePlan(d, c).Written?
    ensures WorkersTold(WorkersOf(UpdatePlan(d, c).document, c.direction), c.direction, told)
  {
    hide WorkerTold;
    var workers := WorkersOf(d, c.direction);
    var only := Sole(workers, (w: Worker) => IsWorker(w, c.service, c.generation));
    AdvancedTold(workers[only.value], c.direction, c.expected, c.target, c.serviceId, c.digest, told);
    hide AdvancedWorker;
  }

  lemma ResourceStep(d: Document, c: ResourceCommand, told: set<Command>)
    requires ResourceTold(d, told) && OfResource(c) in told && UpdateResource(d, c).Written?
    ensures ResourceTold(UpdateResource(d, c).document, told)
  {
    hide AuthorityOk;
    hide RollbackControl;
    hide IsRollbackAuthority;
    hide IsRollbackSecret;
    hide IdentityOk;
    hide SameAuthorityKey;
    if c.CmdRecordAuthorityIntent? {
      assert c.authority.state.Planned? ==> c.authority.(state := Planned) == c.authority;
    }
    hide Without;
  }

  lemma MarkStep(authorities: seq<Authority>, i: nat, next: Authority, told: set<Command>)
    requires AuthoritiesTold(authorities, told) && i < |authorities| && AuthorityTold(next, told)
    ensures AuthoritiesTold(authorities[i := next], told)
  {
    hide AuthorityTold;
  }

  lemma OperationResources(d: Document, c: OperationCommand, told: set<Command>)
    requires ResourceTold(d, told) && OfOperation(c) in told && UpdateOperation(d, c).Written?
    ensures ResourceTold(UpdateOperation(d, c).document, told)
  {
    hide IdentityOk;
    hide SuccessGate;
    match c {
      case CmdCompleteAbortAuthority(kind, service, generation) =>
        var live := Sole(d.authorities, (a: Authority) => HasKey(a, kind, service, generation) && !a.state.Revoked?);
        var a := d.authorities[live.value];
        assert a.(state := Revoked).(state := Planned) == a.(state := Planned);
        assert AuthorityTold(a.(state := Revoked), told);
        MarkStep(d.authorities, live.value, a.(state := Revoked), told);
      case _ =>
    }
    hide AuthoritiesTold;
    hide Without;
  }

  lemma VisionResources(d: Document, c: VisionCommand, told: set<Command>)
    requires ResourceTold(d, told) && UpdateVision(d, c).Written?
    ensures ResourceTold(UpdateVision(d, c).document, told)
  {
    hide AuthoritiesTold;
    hide Sole;
    VisionFrame(d, c);
    var secrets, n := d.preparedSecrets, UpdateVision(d, c).document.preparedSecrets;
    if n != secrets {
      var only := Sole(d.visionJobs, (j: VisionJob) => j.mode == c.mode);
      var used := d.visionJobs[only.value].databaseSecret;
      assert n == DropSecret(secrets, used);
    }
    hide UpdateVision;
    hide Without;
  }

  lemma VisionStep(d: Document, c: VisionCommand, told: set<Command>)
    requires VisionTold(d, told) && SecretsTold(d.preparedSecrets, told)
    requires OfVision(c) in told && UpdateVision(d, c).Written?
    ensures VisionTold(UpdateVision(d, c).document, told)
  {
    hide DropSecret;
    if !c.CmdPrepareVisionJob? {
      hide RedisTold;
      hide DatabaseTold;
      hide SecretsTold;
    }
  }

  lemma RuntimeVision(d: Document, c: ResourceCommand, told: set<Command>)
    requires VisionTold(d, told) && UpdateResource(d, c).Written?
    ensures VisionTold(UpdateResource(d, c).document, told)
  {
    hide RuntimeRef;
    hide DatabaseTold;
    ResourceFrame(d, c);
    var n := UpdateResource(d, c).document;
    assert forall role :: role in d.runtimeRedis ==>
        role in n.runtimeRedis && n.runtimeRedis[role] == d.runtimeRedis[role];
    hide UpdateResource;
  }

  lemma OperationPhases(d: Document, c: OperationCommand, told: set<Command>)
    requires PhaseTold(d, told) && OfOperation(c) in told && UpdateOperation(d, c).Written?
    ensures PhaseTold(UpdateOperation(d, c).document, told)
  {
    hide IdentityOk;
    hide SuccessGate;
    hide Without;
    hide AbortTold;
    hide ResumeTold;
    hide RetiringTold;
  }

  lemma SetPhaseTold(d: Document, target: Phase, outcome: Option<Outcome>, told: set<Command>)
    requires PhaseTold(d, told) && SetPhase(d, target, outcome).Some?
    requires target.Retiring? ==> OfPhase(CmdTransition(Retiring, outcome)) in told
    requires target.Done? ==>
               || OfPhase(CmdTransition(Done, outcome)) in told
               || (outcome == Some(Aborted) && OfPhase(CmdFinishAbort) in told)
    ensures PhaseTold(SetPhase(d, target, outcome).value, told)
  {
    hide MayEnter;
    hide AllJobsRemoved;
    hide MayFinishAborted;
    hide OperationTold;
    hide AbortTold;
    hide ResumeTold;
  }

  /** A transaction is aborted or resumed from one of three early phases. */
  lemma EligibleEarly(d: Document, c: PhaseCommand)
    requires (c.CmdBeginAbort? || c.CmdResumeLegacyForward?) ==> UpdatePhase(d, c).Written?
    ensures c.CmdBeginAbort? || c.CmdResumeLegacyForward? ==> d.phase in {Preparing, ForwardApplying, RollbackPreparing}
  {
    hide SetPhase;
    hide Remaining;
    hide LegacyWorkersOk;
    hide LegacyAuthoritiesOk;
    hide LegacyResumeOk;
    hide LegacyFailureOk;
  }

  lemma PhaseStep(d: Document, c: PhaseCommand, told: set<Command>)
    requires PhaseTold(d, told) && OfPhase(c) in told && UpdatePhase(d, c).Written?
    ensures PhaseTold(UpdatePhase(d, c).document, told)
  {
    hide SetPhase;
    hide Remaining;
    hide RetiringTold;
    EligibleEarly(d, c);
    hide LegacyEligible;
    match c {
      case CmdTransition(target, outcome) => SetPhaseTold(d, target, outcome, told);
      case CmdCompleteIntent(operationId) =>
        SetPhaseTold(d.(operation := None), d.operation.value.targetPhase, None, told);
      case CmdBeginAbort(reason, progress) =>
        assert AbortTold(reason, told);
        var planned := d.(abort := Some(AbortPlan(reason, Remaining(d.authorities))),
                          lastError := Some(LastError(reason, d.phase)));
        SetPhaseTold(planned, Aborting, None, told);
      case CmdFinishAbort => SetPhaseTold(d, Done, Some(Aborted), told);
      case CmdResumeLegacyForward(transactionId, commit, progress) =>
        assert ResumeTold(transactionId, commit, told);
    }
    hide AbortTold;
    hide ResumeTold;
  }

  // ----- the pipeline's commands -----

  /** A stage whose job is replaced by one with the same plan. */
  lemma ReplacedTold(id: string, commit: string, r: Registered, stage: JobStage, job: Job, told: set<Command>)
    requires PipelineTold(id, commit, r, told) && StageTold(id, commit, r.Put(stage, job), stage, told)
    requires r.Get(stage).Some? && !(r.Get(stage).value.state.JobRemoved?)
    requires job.attemptId == r.Get(stage).value.attemptId && job.pinsSecretId == r.Get(stage).value.pinsSecretId
    ensures PipelineTold(id, commit, r.Put(stage, job), told)
  {
    forall other: JobStage | other != stage
      ensures StageTold(id, commit, r.Put(stage, job), other, told) == StageTold(id, commit, r, other, told)
    {
    }
    hide StageTold;
  }

  predicate OnJob(c: PipelineCommand) {
    c.CmdConsumeLaunch? || c.CmdBindLaunch? || c.CmdObserveJob? || c.CmdDiscoverJob? || c.CmdStartRemoval?
    || c.CmdFinishRemoval?
  }

  lemma JobStep(d: Document, c: PipelineCommand, told: set<Command>)
    requires OnJob(c) && d.registered.Some? && PipelineTold(d.transactionId, d.targetCommit, d.registered.value, told)
    requires OfPipeline(c) in told && UpdatePipeline(d, c).Written?
    ensures UpdatePipeline(d, c).document.registered.Some?
    ensures PipelineTold(d.transactionId, d.targetCommit, UpdatePipeline(d, c).document.registered.value, told)
  {
    var r := d.registered.value;
    var n := UpdatePipeline(d, c).document.registered.value;
    assert n == r.Put(c.stage, n.Get(c.stage).value);
    assert StageTold(d.transactionId, d.targetCommit, n, c.stage, told) by {
      assert StageTold(d.transactionId, d.targetCommit, r, c.stage, told);
    }
    ReplacedTold(d.transactionId, d.targetCommit, r, c.stage, n.Get(c.stage).value, told);
    hide PipelineTold;
    hide StageTold;
  }

  lemma CaptureStep(d: Document, c: PipelineCommand, told: set<Command>)
    requires c.CmdPrepareCapture? && d.registered.Some?
    requires PipelineTold(d.transactionId, d.targetCommit, d.registered.value, told)
    requires OfPipeline(c) in told && UpdatePipeline(d, c).Written?
    ensures UpdatePipeline(d, c).document.registered.Some?
    ensures PipelineTold(d.transactionId, d.targetCommit, UpdatePipeline(d, c).document.registered.value, told)
  {
    hide OneBackendImage;
    hide CredentialsOk;
    hide AllVerified;
    hide BeforeApply;
    hide RemovalTold;
    hide RemovedTold;
    hide ReaderBound;
    hide PinsBound;
    assert d.registered.value.Get(c.stage).None?;
    assert CaptureTold(d.transactionId, d.targetCommit, c.stage, c.attemptId, c.input, c.specName, told) by {
      assert c.stage.BaselineJob? ==> ReadyToCapture(d.transactionId, d.targetCommit, c.progress);
    }
    hide CaptureTold;
    hide Finished;
  }

  lemma PreparedStep(d: Document, c: PipelineCommand, told: set<Command>)
    requires !OnJob(c) && !c.CmdPrepareCapture? && d.registered.Some?
    requires PipelineTold(d.transactionId, d.targetCommit, d.registered.value, told)
    requires OfPipeline(c) in told && UpdatePipeline(d, c).Written?
    ensures UpdatePipeline(d, c).document.registered.Some?
    ensures PipelineTold(d.transactionId, d.targetCommit, UpdatePipeline(d, c).document.registered.value, told)
  {
    hide BeforeApply;
    hide CaptureTold;
    hide RemovalTold;
    hide RemovedTold;
    if c.CmdBindRead? {
      assert ReaderBound(c.id, told);
    }
    if c.CmdBindPins? {
      assert PinsBound(c.pinsId, told);
    }
    hide ReaderBound;
    hide PinsBound;
  }

  lemma PipelineStep(d: Document, c: PipelineCommand, told: set<Command>)
    requires d.registered.Some? && PipelineTold(d.transactionId, d.targetCommit, d.registered.value, told)
    requires OfPipeline(c) in told && UpdatePipeline(d, c).Written?
    ensures UpdatePipeline(d, c).document.registered.Some?
    ensures PipelineTold(d.transactionId, d.targetCommit, UpdatePipeline(d, c).document.registered.value, told)
  {
    hide PipelineTold;
    hide UpdatePipeline;
    if OnJob(c) {
      JobStep(d, c, told);
    } else if c.CmdPrepareCapture? {
      CaptureStep(d, c, told);
    } else {
      PreparedStep(d, c, told);
    }
  }

  lemma UpdateTold(d: Document, c: Command, told: set<Command>)
    requires Told(d, told) && c in told && Update(d, c).Written?
    ensures Told(Update(d, c).document, told)
  {
    hide WorkersTold;
    hide AuthoritiesTold;
    hide OperationTold;
    hide RedisTold;
    hide DatabaseTold;
    hide AbortTold;
    hide ResumeTold;
    hide RetiringTold;
    hide SelectionTold;
    hide UpdatePhase;
    hide UpdateOperation;
    hide UpdateResource;
    hide UpdatePlan;
    hide UpdateVision;
    hide UpdatePipeline;
    hide PipelineTold;
    match c {
      case OfPhase(p) =>
        PhaseFrame(d, p);
        PhaseStep(d, p, told);
      case OfOperation(o) =>
        OperationFrame(d, o);
        OperationResources(d, o, told);
        OperationPhases(d, o, told);
      case OfResource(r) =>
        ResourceFrame(d, r);
        ResourceStep(d, r, told);
        RuntimeVision(d, r, told);
      case OfPlan(p) =>
        PlanFrame(d, p);
        PlanStep(d, p, told);
      case OfVision(v) =>
        VisionFrame(d, v);
        VisionResources(d, v, told);
        VisionStep(d, v, told);
      case OfPipeline(p) =>
        PipelineFrame(d, p);
        PipelineStep(d, p, told);
    }
  }

  /** The commands of a run that were written. */
  function WrittenBy(j: Journal, submissions: seq<Submission>): set<Command>
    decreases |submissions|
  {
    if submissions == [] then {}
    else
      var n := After(j, submissions[0]);
      (if n != j then {submissions[0].command} else {}) + WrittenBy(n, submissions[1..])
  }

  lemma {:induction false} RunTold(j: Journal, submissions: seq<Submission>, told: set<Command>)
    requires Told(j.document, told)
    ensures Told(Run(j, submissions).document, told + WrittenBy(j, submissions))
    decreases |submissions|
  {
    hide Told;
    hide Update;
    hide Valid;
    if submissions == [] {
      assert told + {} == told;
    } else {
      var s := submissions[0];
      var n := After(j, s);
      var more := told + (if n != j then {s.command} else {});
      ToldMore(j.document, told, more);
      if n != j {
        UpdateTold(j.document, s.command, more);
      }
      RunTold(n, submissions[1..], more);
      assert more + WrittenBy(n, submissions[1..]) == told + WrittenBy(j, submissions);
    }
  }

  /** From the beginning of a transaction, every fact the journal records was told by a command that was written. */
  lemma NothingIsMadeUp(transactionId: string, targetCommit: string, namespace: string, kind: BaselineKind,
                        submissions: seq<Submission>)
    ensures var start := Journal(0, Begin(transactionId, targetCommit, namespace, kind));
            Told(Run(start, submissions).document, WrittenBy(start, submissions))
  {
    var start := Journal(0, Begin(transactionId, targetCommit, namespace, kind));
    assert Told(start.document, {});
    RunTold(start, submissions, {});
    assert {} + WrittenBy(start, submissions) == WrittenBy(start, submissions);
    hide Told;
    hide Run;
  }
}
