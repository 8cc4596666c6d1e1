/**
 The two ways out of a failed deployment before any promotion: starting an abort and
 resuming a legacy forward. What their own checks let through the validator accepts, and
 a started abort can be run to its end.
 */
module AdmissionStart {
  import opened Common
  import opened AdmissionTypes
  import opened AdmissionValidator
  import opened AdmissionContext
  import opened AdmissionCommands
  import opened AdmissionJournal
  import opened AdmissionInvariant
  import opened AdmissionDrain

  /** Before promotion no rollback control plane is in play, so neither start changes the document's context. */
  lemma StartContext(d: Document, n: Document)
    requires d.phase.Preparing? || d.phase.ForwardApplying? || d.rollback.control.None?
    requires n.phase.Aborting? || n.phase.ForwardApplying?
    requires n == d.(phase := n.phase, abort := n.abort, lastError := n.lastError)
    ensures SameContext(d, n) && RollbackControl(n).None?
  {
  }

  /** The context rules of the validator carry over to the new phase. */
  lemma StartValid(d: Document, n: Document)
    requires Valid(d) && d.operation.None? && d.outcome.None?
    requires d.phase.Preparing? || d.phase.ForwardApplying? || (d.phase.RollbackPreparing? && d.rollback.control.None?)
    requires n.phase.Aborting? || (n.phase.ForwardApplying? && d.phase.RollbackPreparing?)
    requires n == d.(phase := n.phase, abort := n.abort, lastError := n.lastError)
    ensures AuthoritiesOk(n) && AuthorityStatesOk(n) && PreparedSecretsOk(n)
  {
    StartContext(d, n);
    hide SameContext;
    hide PreparedSecretOk;
    AuthoritiesTransfer(d, n);
    assert SecretRefsOk(n.preparedSecrets) by { SecretsDistinct(d); }
    PreparedSecretsTransfer(d, n);
    hide AuthoritiesOk;
    hide PreparedSecretsOk;
    assert forall a :: !IsRollbackAuthority(d, a) by { NoRollbackAuthority(d, n); }
  }

  lemma NoRollbackAuthority(d: Document, n: Document)
    requires SameContext(d, n) && RollbackControl(n).None?
    ensures forall a :: !IsRollbackAuthority(d, a) && !IsRollbackAuthority(n, a)
  {
    hide RollbackControl;
  }

  predicate MayStartAbort(d: Document) {
    d.phase.Preparing? || d.phase.ForwardApplying? || (d.phase.RollbackPreparing? && d.rollback.control.None?)
  }

  lemma BeginAbortSets(d: Document, reason: string, progress: Option<AppProgress>)
    requires BeginAbort(d, reason, progress).Written?
    ensures MayStartAbort(d) && d.operation.None? && CleanGate(d.registered)
    ensures BeginAbort(d, reason, progress).document
            == d.(abort := Some(AbortPlan(reason, Remaining(d.authorities))),
                  lastError := Some(LastError(reason, d.phase)), phase := Aborting)
    ensures d.phase.ForwardApplying? ==> d.janitor.None? && !AnyApplied(d.forward.workers)
  {
    hide CleanGate;
    hide SuccessGate;
    hide LegacyWorkersOk;
    hide LegacyAuthoritiesOk;
    hide LegacyFailureOk;
    hide Remaining;
  }

  /** What starts an abort passes the validator: the abort is never refused after its own checks. */
  lemma BeginAbortAccepted(d: Document, reason: string, progress: Option<AppProgress>)
    requires Inv(d) && BeginAbort(d, reason, progress).Written?
    ensures Valid(BeginAbort(d, reason, progress).document)
  {
    BeginAbortSets(d, reason, progress);
    hide BeginAbort;
    var n := d.(abort := Some(AbortPlan(reason, Remaining(d.authorities))),
                lastError := Some(LastError(reason, d.phase)), phase := Aborting);
    StartFacts(d);
    StartValid(d, n);
    AbortingAuthorities(n);
    RemainingOk(n.authorities, n.targetCommit);
    StartKeepsRest(d, n);
  }

  lemma StartFacts(d: Document)
    requires Inv(d) && (d.phase.Preparing? || d.phase.ForwardApplying? || d.phase.RollbackPreparing?)
    ensures Valid(d) && d.outcome.None? && d.retiringOutcome.None? && d.abort.None?
    ensures d.promotion == Promotion(false, false, false)
  {
    hide AuthoritiesOk;
    hide AuthorityStatesOk;
    hide PreparedSecretsOk;
    hide PipelineSettled;
    hide AbortAuthoritiesOk;
  }

  /** The remaining rules do not look at the phase, or ask less of the new one. */
  lemma StartKeepsRest(d: Document, n: Document)
    requires Valid(d) && d.operation.None? && d.outcome.None? && d.retiringOutcome.None?
    requires d.promotion == Promotion(false, false, false)
    requires n == d.(phase := n.phase, abort := n.abort, lastError := n.lastError)
    requires n.phase.Aborting? || (n.phase.ForwardApplying? && d.baseline.captured)
    requires AuthoritiesOk(n) && AuthorityStatesOk(n) && PreparedSecretsOk(n) && AbortOk(n)
    ensures Valid(n)
  {
    hide AuthoritiesOk;
    hide AuthorityStatesOk;
    hide PreparedSecretsOk;
    hide AbortOk;
    hide RegisteredOk;
    hide BaselineOk;
    hide FailedForwardOk;
    hide ForwardOk;
    hide RollbackOk;
    hide VisionJobsOk;
    hide RetirementsOk;
  }

  /** An eligible legacy candidate is resumed: the validator never refuses it. */
  lemma ResumeAccepted(d: Document, transactionId: string, commit: string, progress: AppProgress)
    requires Inv(d) && ResumeLegacyForward(d, transactionId, commit, progress).Written?
    ensures Valid(ResumeLegacyForward(d, transactionId, commit, progress).document)
  {
    hide LegacyWorkersOk;
    hide LegacyAuthoritiesOk;
    hide LegacyFailureOk;
    hide Valid;
    hide Inv;
    assert d.phase.RollbackPreparing? && LegacyContextOk(d, progress, true);
    StartFacts(d);
    var n := ResumeLegacyForward(d, transactionId, commit, progress).document;
    StartValid(d, n);
    assert AbortOk(n);
    StartKeepsRest(d, n);
  }

  /** Whatever can be aborted can be aborted completely, unless a retirement is queued. */
  lemma AbortRunsToTheEnd(j: Journal, reason: string, progress: Option<AppProgress>)
    returns (submissions: seq<Submission>)
    requires Inv(j.document) && BeginAbort(j.document, reason, progress).Written? && j.document.retirements == []
    ensures CleanlyAborted(Run(j, submissions).document)
  {
    hide Inv;
    hide Valid;
    var c := OfPhase(CmdBeginAbort(reason, progress));
    BeginAbortSets(j.document, reason, progress);
    BeginAbortAccepted(j.document, reason, progress);
    hide BeginAbort;
    var s := Submission(j.revision, c);
    assert Update(j.document, c) == BeginAbort(j.document, reason, progress);
    AfterKeeps(j, s);
    var rest := AbortDrains(After(j, s));
    submissions := [s] + rest;
    assert submissions[1..] == rest;
  }

  /**
   When an abort starts. A legacy candidate needs its eligibility and a clean pipeline; any
   other document starts one exactly while preparing, or while applying with nothing
   applied or left running.
   */
  lemma AbortStartsWhen(d: Document, reason: string, progress: Option<AppProgress>)
    requires Inv(d)
    ensures BeginAbort(d, reason, progress).Written? <==>
            if NeedsLegacyCheck(d)
            then progress.Some? && LegacyEligible(d, progress.value, false) && CleanGate(d.registered)
            else || d.phase.Preparing?
                 || (&& d.phase.ForwardApplying? && d.operation.None? && CleanGate(d.registered)
                     && d.janitor.None? && !AnyApplied(d.forward.workers))
  {
    hide Inv;
    hide BeginAbort;
    hide LegacyEligible;
    hide AnyApplied;
    hide CleanGate;
    if NeedsLegacyCheck(d) {
      LegacyAbortStartsWhen(d, reason, progress);
    } else {
      PlainAbortStartsWhen(d, reason, progress);
    }
  }

  lemma PlainAbortStartsWhen(d: Document, reason: string, progress: Option<AppProgress>)
    requires Inv(d) && !NeedsLegacyCheck(d)
    ensures BeginAbort(d, reason, progress).Written? <==>
            || d.phase.Preparing?
            || (&& d.phase.ForwardApplying? && d.operation.None? && CleanGate(d.registered)
                && d.janitor.None? && !AnyApplied(d.forward.workers))
  {
    hide Inv;
    hide CleanGate;
    hide AnyApplied;
    hide Remaining;
    hide SetPhase;
    hide LegacyEligible;
    if d.phase.Preparing? || d.phase.ForwardApplying? {
      StartFacts(d);
      if d.phase.Preparing? {
        PreparingIsClean(d);
      }
      if d.operation.None? {
        AbortingNeedsCleanGate(d, AbortPlan(reason, Remaining(d.authorities)), LastError(reason, d.phase));
      }
    }
  }

  lemma LegacyAbortStartsWhen(d: Document, reason: string, progress: Option<AppProgress>)
    requires Inv(d) && NeedsLegacyCheck(d)
    ensures BeginAbort(d, reason, progress).Written? <==>
            progress.Some? && LegacyEligible(d, progress.value, false) && CleanGate(d.registered)
  {
    hide Inv;
    hide CleanGate;
    hide LegacyEligible;
    hide AnyApplied;
    hide Remaining;
    hide SetPhase;
    if progress.Some? && LegacyEligible(d, progress.value, false) {
      EligibleIsUnused(d, progress.value);
      AbortingNeedsCleanGate(d, AbortPlan(reason, Remaining(d.authorities)), LastError(reason, d.phase));
    }
  }

  lemma AbortingNeedsCleanGate(d: Document, plan: AbortPlan, error: LastError)
    requires MayStartAbort(d) && d.operation.None?
    ensures SetPhase(d.(abort := Some(plan), lastError := Some(error)), Aborting, None).Some? <==>
            CleanGate(d.registered)
  {
    hide SuccessGate;
    hide CleanGate;
  }

  lemma EligibleIsUnused(d: Document, progress: AppProgress)
    requires LegacyEligible(d, progress, false)
    ensures MayStartAbort(d) && !d.phase.Preparing? && d.operation.None? && d.abort.None?
    ensures d.janitor.None? && !AnyApplied(d.forward.workers)
  {
    hide LegacyAuthoritiesOk;
    hide LegacyFailureOk;
  }

  lemma PreparingIsClean(d: Document)
    requires Inv(d) && d.phase.Preparing?
    ensures d.operation.None? && CleanGate(d.registered)
  {
    hide AuthoritiesOk;
    hide AuthorityStatesOk;
    hide PreparedSecretsOk;
    hide CleanGate;
  }

  /**
   Whatever the progress file says, an abort starts while preparing exactly outside the legacy
   check, which only later phases pass.
   */
  lemma PreparingAbortsExactly(d: Document, reason: string)
    requires Inv(d) && d.phase.Preparing?
    ensures (exists progress :: BeginAbort(d, reason, progress).Written?) <==> !NeedsLegacyCheck(d)
  {
    if !NeedsLegacyCheck(d) {
      AbortStartsWhen(d, reason, None);
      assert BeginAbort(d, reason, None).Written?;
    }
    hide Inv;
    hide LegacyAuthoritiesOk;
    hide LegacyFailureOk;
    hide LegacyWorkersOk;
    hide SetPhase;
    hide Remaining;
  }

  /** And where it starts, the transaction can be aborted completely. */
  lemma PreparingCanBeAborted(j: Journal, reason: string) returns (submissions: seq<Submission>)
    requires Inv(j.document) && j.document.phase.Preparing? && !NeedsLegacyCheck(j.document)
    ensures CleanlyAborted(Run(j, submissions).document)
  {
    AbortStartsWhen(j.document, reason, None);
    PreparingHasNoRetirement(j.document);
    hide Inv;
    hide BeginAbort;
    hide Run;
    submissions := AbortRunsToTheEnd(j, reason, None);
  }

  lemma PreparingHasNoRetirement(d: Document)
    requires Inv(d) && d.phase.Preparing?
    ensures d.retirements == []
  {
    hide Valid;
  }
}
