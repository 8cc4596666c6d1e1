/**
 What every journal reachable from a new transaction satisfies beyond the
 validator's own rules.
 */
module AdmissionInvariant {
  import opened Common
  import opened AdmissionTypes
  import opened AdmissionValidator
  import opened AdmissionCommands
  import opened AdmissionJournal

  predicate NoneRevoked(authorities: seq<Authority>) {
    forall i :: 0 <= i < |authorities| ==> !authorities[i].state.Revoked?
  }

  /** The pipeline is open only while the forward plan is applied; forward milestones keep its full success. */
  predicate PipelineSettled(d: Document) {
    && (!d.phase.ForwardApplying? ==> CleanGate(d.registered))
    && (d.phase in FORWARD_MILESTONES ==> SuccessGate(d.registered))
  }

  predicate RollbackAllocation(transactionId: string, r: Rollback) {
    && r.attempt <= 1
    && (r.attempt == 1 ==>
          && r.namespace == Some(AllocatedNamespace(transactionId))
          && r.markerGeneration == Some(AllocatedMarker(transactionId)))
    && (r.attempt == 0 ==> r.workers == [])
  }

  /** Nothing is queued for retirement at first, and no rollback control plane is chosen before a rollback. */
  predicate NotBeforeItsTime(d: Document) {
    && (d.phase.Preparing? ==> d.retirements == [])
    && (d.phase.Preparing? || d.phase.ForwardApplying? ==> d.rollback.control.None?)
  }

  predicate Inv(d: Document) {
    && Valid(d)
    && PipelineSettled(d)
    && (d.phase.Done? ==> AllJobsRemoved(d.visionJobs))
    && (NoneRevoked(d.authorities) || d.preparedSecrets == [])
    && RollbackAllocation(d.transactionId, d.rollback)
    && NotBeforeItsTime(d)
  }

  // ----- what each group of commands leaves alone -----

  lemma OperationFrame(d: Document, c: OperationCommand)
    requires UpdateOperation(d, c).Written?
    ensures var n := UpdateOperation(d, c).document;
            n == d.(operation := n.operation, preparedSecrets := n.preparedSecrets, authorities := n.authorities,
                    abort := n.abort)
  {
  }

  lemma ResourceFrame(d: Document, c: ResourceCommand)
    requires UpdateResource(d, c).Written?
    ensures var n := UpdateResource(d, c).document;
            n == d.(authorities := n.authorities, preparedSecrets := n.preparedSecrets, runtimeRedis := n.runtimeRedis,
                    janitor := n.janitor, retirements := n.retirements)
  {
  }

  lemma PlanFrame(d: Document, c: PlanCommand)
    requires UpdatePlan(d, c).Written?
    ensures var n := UpdatePlan(d, c).document;
            n == d.(baseline := n.baseline, failedForward := n.failedForward, forward := n.forward,
                    rollback := n.rollback)
  {
  }

  lemma VisionFrame(d: Document, c: VisionCommand)
    requires UpdateVision(d, c).Written?
    ensures var n := UpdateVision(d, c).document;
            n == d.(visionJobs := n.visionJobs, preparedSecrets := n.preparedSecrets)
  {
  }

  lemma PipelineFrame(d: Document, c: PipelineCommand)
    requires UpdatePipeline(d, c).Written?
    ensures var n := UpdatePipeline(d, c).document; n == d.(registered := n.registered)
  {
  }

  lemma PhaseFrame(d: Document, c: PhaseCommand)
    requires UpdatePhase(d, c).Written?
    ensures var n := UpdatePhase(d, c).document;
            n == d.(phase := n.phase, outcome := n.outcome, promotion := n.promotion,
                    retiringOutcome := n.retiringOutcome,
                    lastError := n.lastError, operation := n.operation, abort := n.abort)
  {
    hide LegacyEligible;
    hide MayEnter;
    hide MayFinishAborted;
    hide MayFinishRetired;
    hide Remaining;
  }

  // ----- the invariant holds initially and is kept -----

  lemma BeginKeeps(transactionId: string, targetCommit: string, namespace: string, kind: BaselineKind)
    requires TransactionIdOk(transactionId)
    ensures Inv(Begin(transactionId, targetCommit, namespace, kind))
  {
  }

  /** While nothing of the pipeline is live no pipeline command can change its record. */
  lemma CleanIsFixed(d: Document, c: PipelineCommand)
    requires !d.phase.ForwardApplying? && CleanGate(d.registered)
    ensures !UpdatePipeline(d, c).Written?
  {
  }

  lemma PipelineSettles(d: Document, c: PipelineCommand)
    requires PipelineSettled(d) && UpdatePipeline(d, c).Written?
    ensures PipelineSettled(UpdatePipeline(d, c).document)
  {
    PipelineFrame(d, c);
    if !d.phase.ForwardApplying? {
      CleanIsFixed(d, c);
    }
  }

  /** Settlement depends on the phase and the pipeline record alone. */
  lemma SettledFrame(d: Document, n: Document)
    requires PipelineSettled(d) && n.phase == d.phase && n.registered == d.registered
    ensures PipelineSettled(n)
  {
  }

  lemma SetPhaseSettles(d: Document, target: Phase, outcome: Option<Outcome>)
    requires PipelineSettled(d)
    requires SetPhase(d, target, outcome).Some?
    ensures PipelineSettled(SetPhase(d, target, outcome).value)
  {
  }

  lemma PhaseSettles(d: Document, c: PhaseCommand)
    requires PipelineSettled(d) && UpdatePhase(d, c).Written?
    ensures PipelineSettled(UpdatePhase(d, c).document)
  {
    hide LegacyEligible;
    hide SuccessGate;
    hide CleanGate;
    match c {
      case CmdTransition(target, outcome) =>
        SetPhaseSettles(d, target, outcome);
      case CmdCompleteIntent(id) =>
        SetPhaseSettles(d.(operation := None), d.operation.value.targetPhase, None);
      case CmdBeginAbort(reason, progress) =>
      case CmdFinishAbort =>
        SetPhaseSettles(d, Done, Some(Aborted));
      case CmdResumeLegacyForward(_, _, _) =>
    }
  }

  lemma FinishedJobsRemoved(d: Document, c: PhaseCommand)
    requires d.phase.Done? ==> AllJobsRemoved(d.visionJobs)
    requires UpdatePhase(d, c).Written? && UpdatePhase(d, c).document.phase.Done?
    ensures AllJobsRemoved(d.visionJobs)
  {
    hide LegacyEligible;
    hide SuccessGate;
    hide CleanGate;
  }

  lemma VisionStaysRemoved(d: Document, c: VisionCommand)
    requires d.phase.Done? && AllJobsRemoved(d.visionJobs) && UpdateVision(d, c).Written?
    ensures UpdateVision(d, c).document == d
  {
  }

  lemma OperationRevokesLast(d: Document, c: OperationCommand)
    requires NoneRevoked(d.authorities) || d.preparedSecrets == []
    requires UpdateOperation(d, c).Written?
    ensures var n := UpdateOperation(d, c).document; NoneRevoked(n.authorities) || n.preparedSecrets == []
  {
  }

  lemma ResourceRevokesNothing(d: Document, c: ResourceCommand)
    requires NoneRevoked(d.authorities) || d.preparedSecrets == []
    requires AuthorityStatesOk(d)
    requires UpdateResource(d, c).Written?
    ensures var n := UpdateResource(d, c).document; NoneRevoked(n.authorities) || n.preparedSecrets == []
  {
  }

  lemma PlanAllocates(d: Document, c: PlanCommand)
    requires RollbackAllocation(d.transactionId, d.rollback) && UpdatePlan(d, c).Written?
    ensures RollbackAllocation(d.transactionId, UpdatePlan(d, c).document.rollback)
  {
    hide AllocatedNamespace;
    hide AllocatedMarker;
    hide WorkerOk;
    hide ControlOk;
    hide MarkerOk;
    hide ServiceIdentitiesOk;
    hide AdvancedWorker;
    hide Sole;
    hide SamePlan;
  }

  /** No phase command leads back to the first phase, and only a resume of an unused candidate back to applying. */
  lemma PhaseIsTimely(d: Document, c: PhaseCommand)
    requires NotBeforeItsTime(d) && UpdatePhase(d, c).Written?
    ensures NotBeforeItsTime(UpdatePhase(d, c).document)
  {
    PhaseFrame(d, c);
    match c {
      case CmdResumeLegacyForward(id, commit, progress) =>
        EligibleChoseNoControl(d, progress);
      case _ =>
    }
    hide LegacyEligible;
    hide SuccessGate;
    hide CleanGate;
    hide MayFinishAborted;
    hide MayFinishRetired;
    hide Remaining;
  }

  lemma EligibleChoseNoControl(d: Document, progress: AppProgress)
    requires LegacyEligible(d, progress, true)
    ensures d.rollback.control.None?
  {
    hide LegacyWorkersOk;
    hide LegacyAuthoritiesOk;
    hide LegacyResumeOk;
    hide LegacyFailureOk;
  }

  lemma ResourceIsTimely(d: Document, c: ResourceCommand)
    requires NotBeforeItsTime(d) && UpdateResource(d, c).Written?
    ensures NotBeforeItsTime(UpdateResource(d, c).document)
  {
  }

  lemma PlanIsTimely(d: Document, c: PlanCommand)
    requires NotBeforeItsTime(d) && UpdatePlan(d, c).Written?
    ensures NotBeforeItsTime(UpdatePlan(d, c).document)
  {
    hide AllocatedNamespace;
    hide AllocatedMarker;
    hide WorkerOk;
    hide ControlOk;
    hide MarkerOk;
    hide ServiceIdentitiesOk;
    hide AdvancedWorker;
    hide Sole;
    hide SamePlan;
  }

  lemma UpdateKeeps(d: Document, c: Command)
    requires Inv(d) && Update(d, c).Written?
    requires Valid(Update(d, c).document)
    ensures Inv(Update(d, c).document)
  {
    hide UpdatePhase;
    hide UpdateOperation;
    hide UpdateResource;
    hide UpdatePlan;
    hide UpdateVision;
    hide UpdatePipeline;
    hide PipelineSettled;
    hide RollbackAllocation;
    match c {
      case OfPhase(p) =>
        PhaseFrame(d, p);
        PhaseSettles(d, p);
        if UpdatePhase(d, p).document.phase.Done? {
          FinishedJobsRemoved(d, p);
        }
        PhaseIsTimely(d, p);
      case OfOperation(o) =>
        OperationFrame(d, o);
        SettledFrame(d, UpdateOperation(d, o).document);
        OperationRevokesLast(d, o);
      case OfResource(r) =>
        ResourceFrame(d, r);
        SettledFrame(d, UpdateResource(d, r).document);
        ResourceRevokesNothing(d, r);
        ResourceIsTimely(d, r);
      case OfPlan(p) =>
        PlanFrame(d, p);
        SettledFrame(d, UpdatePlan(d, p).document);
        PlanAllocates(d, p);
        PlanIsTimely(d, p);
      case OfVision(v) =>
        VisionFrame(d, v);
        SettledFrame(d, UpdateVision(d, v).document);
        VisionDropsSecrets(d, v);
        if d.phase.Done? {
          VisionStaysRemoved(d, v);
        }
      case OfPipeline(p) =>
        PipelineFrame(d, p);
        PipelineSettles(d, p);
    }
  }

  lemma VisionDropsSecrets(d: Document, c: VisionCommand)
    requires UpdateVision(d, c).Written?
    ensures d.preparedSecrets == [] ==> UpdateVision(d, c).document.preparedSecrets == []
  {
  }

  lemma AfterKeeps(j: Journal, s: Submission)
    requires Inv(j.document)
    ensures Inv(After(j, s).document)
  {
    hide Update;
    hide Inv;
    hide Valid;
    var u := Update(j.document, s.command);
    if s.revision == j.revision && u.Written? && Valid(u.document) {
      UpdateKeeps(j.document, s.command);
    }
  }

  lemma {:induction false} RunKeeps(j: Journal, submissions: seq<Submission>)
    requires Inv(j.document)
    ensures Inv(Run(j, submissions).document)
    decreases |submissions|
  {
    hide After;
    hide Inv;
    if submissions != [] {
      AfterKeeps(j, submissions[0]);
      RunKeeps(After(j, submissions[0]), submissions[1..]);
    }
  }
}
