/**
 Phase safety over whole runs: the promotion flags follow the phase table, a
 promotion is never taken back, a finished transaction never changes, and the
 outcome means what it says.
 */
module AdmissionPhases {
  import opened Common
  import opened AdmissionTypes
  import opened AdmissionValidator
  import opened AdmissionContext
  import opened AdmissionCommands
  import opened AdmissionJournal
  import opened AdmissionInvariant

  predicate FlagsMatch(d: Document) {
    d.promotion == ExpectedPromotion(d.phase, d.outcome)
  }

  /** The fields that only a phase change may touch agree with the phase. */
  predicate Coherent(d: Document) {
    && FlagsMatch(d)
    && (d.phase.Done? <==> d.outcome.Some?)
    && RetiringOk(d.phase, d.outcome, d.retiringOutcome)
  }

  /** The phase change itself keeps the flags on the table, before the validator looks. */
  lemma SetPhaseKeepsFlags(d: Document, target: Phase, outcome: Option<Outcome>)
    requires FlagsMatch(d) && SetPhase(d, target, outcome).Some?
    ensures FlagsMatch(SetPhase(d, target, outcome).value)
  {
    hide CleanGate;
    hide SuccessGate;
  }

  lemma ResumeKeepsFlags(d: Document, transactionId: string, commit: string, progress: AppProgress)
    requires FlagsMatch(d) && ResumeLegacyForward(d, transactionId, commit, progress).Written?
    ensures FlagsMatch(ResumeLegacyForward(d, transactionId, commit, progress).document)
    ensures ResumeLegacyForward(d, transactionId, commit, progress).document.phase.ForwardApplying?
    ensures d.phase.RollbackPreparing?
  {
  }

  // ----- promotions are final -----

  /** Position of a promoted phase on its side; unpromoted phases have none. */
  function PromotionRank(phase: Phase): nat {
    match phase
    case WorkersPromoted => 1
    case RollbackWorkersPromoted => 1
    case MarkerPromoted => 2
    case RollbackMarkerPromoted => 2
    case ControlPromoted => 3
    case RollbackControlPromoted => 3
    case Retiring => 4
    case Done => 5
    case _ => 0
  }

  predicate ForwardSide(phase: Phase) {
    phase.WorkersPromoted? || phase.MarkerPromoted? || phase.ControlPromoted?
  }

  predicate RollbackSide(phase: Phase) {
    phase.RollbackWorkersPromoted? || phase.RollbackMarkerPromoted? || phase.RollbackControlPromoted?
  }

  /** From a promoted document only the rest of its own side, then retirement, can follow. */
  predicate Follows(before: Document, after: Document) {
    PromotionRank(before.phase) > 0 ==>
      && PromotionRank(before.phase) <= PromotionRank(after.phase)
      && (ForwardSide(before.phase) ==> !RollbackSide(after.phase))
      && (RollbackSide(before.phase) ==> !ForwardSide(after.phase))
      && (before.outcome.Some? ==> after.outcome == before.outcome)
      && (before.retiringOutcome.Some? ==> after.retiringOutcome == before.retiringOutcome)
      && (before.promotion.workers ==> after.promotion.workers)
  }

  lemma SetPhaseFollows(d: Document, target: Phase, outcome: Option<Outcome>)
    requires Coherent(d) && SetPhase(d, target, outcome).Some?
    ensures Follows(d, SetPhase(d, target, outcome).value)
  {
    hide CleanGate;
    hide SuccessGate;
  }

  lemma PhaseCommandFollows(d: Document, c: PhaseCommand)
    requires Coherent(d) && UpdatePhase(d, c).Written?
    ensures Follows(d, UpdatePhase(d, c).document)
  {
    hide SetPhase;
    hide LegacyEligible;
    match c {
      case CmdTransition(target, outcome) => SetPhaseFollows(d, target, outcome);
      case CmdCompleteIntent(id) => SetPhaseFollows(d.(operation := None), d.operation.value.targetPhase, None);
      case CmdBeginAbort(reason, progress) => BeginAbortFollows(d, reason, progress);
      case CmdFinishAbort => SetPhaseFollows(d, Done, Some(Aborted));
      case CmdResumeLegacyForward(transactionId, commit, progress) =>
        ResumeKeepsFlags(d, transactionId, commit, progress);
    }
  }

  lemma BeginAbortFollows(d: Document, reason: string, progress: Option<AppProgress>)
    requires BeginAbort(d, reason, progress).Written?
    ensures PromotionRank(d.phase) == 0
  {
    hide CleanGate;
    hide SuccessGate;
    hide LegacyEligible;
  }

  lemma OtherCommandsFollow(d: Document, c: Command)
    requires !c.OfPhase? && Update(d, c).Written?
    ensures Follows(d, Update(d, c).document)
    ensures Update(d, c).document.phase == d.phase && Update(d, c).document.outcome == d.outcome
    ensures Update(d, c).document.retiringOutcome == d.retiringOutcome
  {
    hide UpdateOperation;
    hide UpdateResource;
    hide UpdatePlan;
    hide UpdateVision;
    hide UpdatePipeline;
    match c {
      case OfOperation(o) => OperationFrame(d, o);
      case OfResource(r) => ResourceFrame(d, r);
      case OfPlan(p) => PlanFrame(d, p);
      case OfVision(v) => VisionFrame(d, v);
      case OfPipeline(p) => PipelineFrame(d, p);
    }
  }

  lemma AfterFollows(j: Journal, s: Submission)
    requires Inv(j.document)
    ensures Follows(j.document, After(j, s).document)
  {
    hide Update;
    hide Inv;
    hide Valid;
    assert Coherent(j.document) by { InvCoherent(j.document); }
    if Update(j.document, s.command).Written? {
      UpdateFollows(j.document, s.command);
    }
  }

  lemma InvCoherent(d: Document)
    requires Inv(d)
    ensures Coherent(d)
  {
  }

  lemma UpdateFollows(d: Document, c: Command)
    requires Coherent(d) && Update(d, c).Written?
    ensures Follows(d, Update(d, c).document)
  {
    hide UpdatePhase;
    hide UpdateOperation;
    hide UpdateResource;
    hide UpdatePlan;
    hide UpdateVision;
    hide UpdatePipeline;
    if c.OfPhase? {
      PhaseCommandFollows(d, c.phaseCommand);
    } else {
      OtherCommandsFollow(d, c);
    }
  }

  /** No abort, rollback preparation or candidate restore ever follows a promotion of either direction. */
  lemma {:induction false} PromotionIsFinal(j: Journal, submissions: seq<Submission>)
    requires Inv(j.document)
    ensures Follows(j.document, Run(j, submissions).document)
    decreases |submissions|
  {
    hide After;
    hide Inv;
    if submissions != [] {
      var next := After(j, submissions[0]);
      AfterFollows(j, submissions[0]);
      AfterKeeps(j, submissions[0]);
      PromotionIsFinal(next, submissions[1..]);
    }
  }

  // ----- a finished transaction -----

  lemma DoneFixed(d: Document, c: Command)
    requires Inv(d) && d.phase.Done? && Update(d, c).Written?
    ensures Update(d, c).document == d
  {
    InvDone(d);
    hide Inv;
    hide Valid;
    hide UpdatePhase;
    hide UpdateOperation;
    hide UpdateResource;
    hide UpdatePlan;
    hide UpdateVision;
    hide UpdatePipeline;
    match c {
      case OfPhase(p) => PhaseDone(d, p);
      case OfOperation(o) => OperationDone(d, o);
      case OfResource(r) => ResourceDone(d, r);
      case OfPlan(p) => PlanDone(d, p);
      case OfVision(v) => VisionStaysRemoved(d, v);
      case OfPipeline(p) => CleanIsFixed(d, p);
    }
  }

  lemma InvDone(d: Document)
    requires Inv(d) && d.phase.Done?
    ensures d.operation.None? && CleanGate(d.registered) && AllJobsRemoved(d.visionJobs)
    ensures d.abort.None? != (d.outcome == Some(Aborted))
  {
    hide CleanGate;
    hide SuccessGate;
    hide AllJobsRemoved;
    hide AuthoritiesOk;
    hide AuthorityStatesOk;
    hide PreparedSecretsOk;
    hide BaselineOk;
    hide FailedForwardOk;
    hide ForwardOk;
    hide RollbackOk;
    hide VisionJobsOk;
    hide RetirementsOk;
    hide RegisteredOk;
    hide MilestonesOk;
    hide AbortAuthoritiesOk;
    hide Remaining;
  }

  lemma OperationDone(d: Document, c: OperationCommand)
    requires d.phase.Done?
    ensures !UpdateOperation(d, c).Written?
  {
    hide Sole;
  }

  lemma ResourceDone(d: Document, c: ResourceCommand)
    requires d.phase.Done?
    ensures !UpdateResource(d, c).Written?
  {
    hide Sole;
    hide AuthorityOk;
    hide IsRollbackAuthority;
    hide IsRollbackSecret;
  }

  lemma PlanDone(d: Document, c: PlanCommand)
    requires d.phase.Done?
    ensures !UpdatePlan(d, c).Written?
  {
    hide Sole;
    hide WorkerOk;
    hide ServiceIdentitiesOk;
    hide AdvancedWorker;
  }

  lemma PhaseDone(d: Document, c: PhaseCommand)
    requires d.phase.Done? && d.abort.None? != (d.outcome == Some(Aborted))
    ensures !UpdatePhase(d, c).Written?
  {
  }

  /** Once done, the document never changes again; only the revision can move. */
  lemma {:induction false} DoneIsFinal(j: Journal, submissions: seq<Submission>)
    requires Inv(j.document) && j.document.phase.Done?
    ensures Run(j, submissions).document == j.document
    ensures Run(j, submissions).revision >= j.revision
    decreases |submissions|
  {
    hide Update;
    hide Inv;
    hide Valid;
    if submissions != [] {
      if Update(j.document, submissions[0].command).Written? {
        DoneFixed(j.document, submissions[0].command);
      }
      DoneIsFinal(After(j, submissions[0]), submissions[1..]);
    }
  }

  // ----- what an outcome means -----

  lemma InvOutcome(d: Document)
    requires Inv(d)
    ensures d.outcome.Some? ==> d.phase.Done? && AllJobsRemoved(d.visionJobs) && CleanGate(d.registered)
    ensures d.outcome == Some(Succeeded) ==> AllVerified(d.forward.workers)
    ensures d.outcome == Some(RolledBack) ==>
              d.failedForward.captured && d.rollback.attempt == 1 && AllVerified(d.rollback.workers)
    ensures d.outcome.Some? && d.outcome != Some(Aborted) ==>
              d.baseline.captured && d.promotion == Promotion(true, true, true)
    ensures d.outcome == Some(Aborted) ==> d.promotion == Promotion(false, false, false)
  {
    hide AuthoritiesOk;
    hide AuthorityStatesOk;
    hide PreparedSecretsOk;
    hide BaselineOk;
    hide FailedForwardOk;
    hide ForwardOk;
    hide RollbackOk;
    hide VisionJobsOk;
    hide RetirementsOk;
    hide RegisteredOk;
    hide AbortOk;
    hide OperationOk;
    hide AllVerified;
    hide AllJobsRemoved;
    hide CleanGate;
    hide SuccessGate;
  }

  /** Every success ends with all forward workers verified; every rollback with the failure captured,
      the one attempt allocated and all rollback workers verified; every abort with nothing left or promoted. */
  lemma OutcomeMeans(transactionId: string, targetCommit: string, namespace: string, kind: BaselineKind,
                     submissions: seq<Submission>)
    requires TransactionIdOk(transactionId)
    ensures var d := Run(Journal(0, Begin(transactionId, targetCommit, namespace, kind)), submissions).document;
            && (d.outcome.Some? ==> d.phase.Done? && AllJobsRemoved(d.visionJobs) && CleanGate(d.registered))
            && (d.outcome == Some(Succeeded) ==> AllVerified(d.forward.workers))
            && (d.outcome == Some(RolledBack) ==>
                  d.failedForward.captured && d.rollback.attempt == 1 && AllVerified(d.rollback.workers))
            && (d.outcome.Some? && d.outcome != Some(Aborted) ==>
                  d.baseline.captured && d.promotion == Promotion(true, true, true))
            && (d.outcome == Some(Aborted) ==> d.promotion == Promotion(false, false, false))
  {
    hide Run;
    hide Inv;
    hide Begin;
    var start := Journal(0, Begin(transactionId, targetCommit, namespace, kind));
    BeginKeeps(transactionId, targetCommit, namespace, kind);
    RunKeeps(start, submissions);
    InvOutcome(Run(start, submissions).document);
  }

  // ----- an explicit outcome on the way into retirement -----

  lemma RetireSets(d: Document, chosen: Outcome)
    requires CleanGate(d.registered) && d.operation.None? && !chosen.Aborted?
    requires d.phase.RollbackControlPromoted? || d.phase.ControlPromoted?
    ensures SetPhase(d, Retiring, Some(chosen)) == Some(d.(retiringOutcome := Some(chosen), phase := Retiring))
    ensures SetPhase(d, Retiring, None) == Some(d.(retiringOutcome := Some(DefaultOutcome(d.phase)), phase := Retiring))
  {
    hide CleanGate;
    hide SuccessGate;
  }

  lemma RetireValid(d: Document, chosen: Outcome)
    requires Inv(d) && d.operation.None? && !chosen.Aborted?
    requires d.phase.RollbackControlPromoted? || d.phase.ControlPromoted?
    ensures var n := d.(retiringOutcome := Some(chosen), phase := Retiring);
            Valid(n) <==> MilestonesOk(n)
    ensures SetPhase(d, Retiring, Some(chosen)) == Some(d.(retiringOutcome := Some(chosen), phase := Retiring))
    ensures SetPhase(d, Retiring, None) == Some(d.(retiringOutcome := Some(DefaultOutcome(d.phase)), phase := Retiring))
  {
    hide CleanGate;
    hide Valid;
    hide MilestonesOk;
    hide SetPhase;
    InvCoherent(d);
    RetireSets(d, chosen);
    SettledMove(d, d.(retiringOutcome := Some(chosen), phase := Retiring));
  }

  lemma InvMilestones(d: Document)
    requires Inv(d)
    ensures MilestonesOk(d) && d.rollback.attempt <= 1
  {
  }

  /** A rollback may be recorded as a success: exactly when every forward worker is verified. */
  lemma SuccessFromRollback(d: Document)
    requires Inv(d) && d.phase.RollbackControlPromoted? && d.operation.None?
    ensures Apply(d, OfPhase(CmdTransition(Retiring, Some(Succeeded)))).Some? <==> AllVerified(d.forward.workers)
    ensures Apply(d, OfPhase(CmdTransition(Retiring, None)))
            == Some(d.(retiringOutcome := Some(RolledBack), phase := Retiring))
  {
    hide Inv;
    hide SetPhase;
    hide AllVerified;
    RetireValid(d, Succeeded);
    RetireValid(d, RolledBack);
    InvMilestones(d);
    hide Valid;
  }

  /** A promoted forward plan may be recorded as rolled back: exactly when a rollback has been prepared and verified. */
  lemma RollbackFromSuccess(d: Document)
    requires Inv(d) && d.phase.ControlPromoted? && d.operation.None?
    ensures Apply(d, OfPhase(CmdTransition(Retiring, Some(RolledBack)))).Some?
            <==> d.failedForward.captured && d.rollback.attempt == 1 && AllVerified(d.rollback.workers)
    ensures Apply(d, OfPhase(CmdTransition(Retiring, None)))
            == Some(d.(retiringOutcome := Some(Succeeded), phase := Retiring))
  {
    hide Inv;
    hide SetPhase;
    hide AllVerified;
    RetireValid(d, Succeeded);
    RetireValid(d, RolledBack);
    InvMilestones(d);
    hide Valid;
  }

  // ----- the shape of the table -----

  /** The place of a phase on the way of a forward. */
  function ForwardPlace(p: Phase): Option<nat> {
    match p
    case Preparing => Some(0)
    case ForwardApplying => Some(1)
    case ForwardVerified => Some(2)
    case WorkersPromoted => Some(3)
    case MarkerPromoted => Some(4)
    case ControlPromoted => Some(5)
    case Retiring => Some(6)
    case Done => Some(7)
    case _ => None
  }

  /** On the way of a rollback. */
  function RollbackPlace(p: Phase): Option<nat> {
    match p
    case RollbackPreparing => Some(0)
    case RollbackApplying => Some(1)
    case RollbackVerified => Some(2)
    case RollbackWorkersPromoted => Some(3)
    case RollbackMarkerPromoted => Some(4)
    case RollbackControlPromoted => Some(5)
    case Retiring => Some(6)
    case Done => Some(7)
    case _ => None
  }

  /** On the way of a candidate that is restored. */
  function RestorePlace(p: Phase): Option<nat> {
    match p
    case CandidateRestoreRequired => Some(0)
    case CandidateRestoring => Some(1)
    case CandidateRestored => Some(2)
    case ForwardVerified => Some(3)
    case _ => None
  }

  predicate NextPlace(a: Option<nat>, b: Option<nat>) {
    a.Some? && b.Some? && b.value == a.value + 1
  }

  /** Where a way is left: for an abort, for a rollback, or for the restoring of the candidate. */
  predicate Leaves(a: Phase, b: Phase) {
    || (b.Aborting? && (a.Preparing? || a.ForwardApplying? || a.RollbackPreparing?))
    || (a.Aborting? && b.Done?)
    || (b.RollbackPreparing? && (a.Preparing? || a.ForwardApplying? || a.ForwardVerified?))
    || (b.RollbackPreparing? && (a.CandidateRestoreRequired? || a.CandidateRestoring? || a.CandidateRestored?))
    || (b.CandidateRestoreRequired? && (a.RollbackPreparing? || a.RollbackApplying?))
  }

  /** A change of phase is legal exactly when it is the next step of a way or leaves one where that is allowed. */
  lemma TransitionsAre(a: Phase, b: Phase)
    ensures b in LegalTransitions(a) <==>
            || NextPlace(ForwardPlace(a), ForwardPlace(b))
            || NextPlace(RollbackPlace(a), RollbackPlace(b))
            || NextPlace(RestorePlace(a), RestorePlace(b))
            || Leaves(a, b)
  {
  }
}
